/** A whole request against the simulator's server: what the pieces promise together. */
module Composition {
  import opened Wrappers
  import opened Replies
  import opened Hosts
  import opened Dialogue
  import opened Grammar
  import opened SessionSpec
  import opened Server
  import opened RequestSpec
  import opened Merging
  import opened Request

  /** What every request keeps, whatever answers it: at every moment no more RCPTs than tokens and at most
      one lease out, verbs in order; and at the end every lease given back. */
  lemma RequestIsOrderly(log: Log, p: Log)
    requires AtRest(log) && Prefix(p, log)
    ensures Rcpts(p) <= Tokens(p) && LeaseRcpts(p) <= LeaseTokens(p) && Releases(p) <= Leases(p) <= Releases(p) + 1
    ensures Grammatical(Verbs(p)) && (Strict(Verbs(p)) <==> !LeftAtReset(p))
    ensures Leases(log) == Releases(log)
  {
    EveryMomentReached(log, p);
    BudgetAndLease(log, p);
    VerbsFit(p);
    StrictExactlyWhen(p);
    LeaseLedger(log);
  }

  // ---------------------------------------------------------------- the moments of a query

  /** A moment of a run that keeps what `Probe` promises of a query, put to a host while the families in
      `fallen` have fallen back. */
  ghost predicate OfQuery(o: Options, fallen: set<string>, q: Query, log: Log) {
    && At(log).Some? && AsksOnly(q, Start, log) && Thrifty(o, Start, log, MostMailsFor(o, fallen, q))
    && (q.mxHost == "" || Asked(q) == {} ==> log == Start)
  }

  lemma {:induction false} SparingBefore(log: Log, m: Log, n: nat)
    requires Sparing(Start, log, n) && Prefix(m, log)
    ensures Sparing(Start, m, n)
    decreases log
  {
    if m == log {
    } else {
      SparingBefore(log.before, m, n);
    }
  }

  lemma {:induction false} AskedBefore(log: Log, m: Log)
    requires Prefix(m, log)
    ensures Pairs(m) <= Pairs(log) && Questions(m) <= Questions(log)
    decreases log
  {
    if m == log {
    } else {
      AskedBefore(log.before, m);
    }
  }

  lemma {:induction false} UnbiddenBefore(o: Options, log: Log, m: Log)
    requires Prefix(m, log)
    ensures Unbidden(o, m) <= Unbidden(o, log)
    decreases log
  {
    if m == log {
    } else {
      UnbiddenBefore(o, log.before, m);
    }
  }

  lemma OfQueryBefore(o: Options, fallen: set<string>, q: Query, log: Log, m: Log)
    requires OfQuery(o, fallen, q, log) && Prefix(m, log)
    ensures OfQuery(o, fallen, q, m)
  {
    EveryMomentReached(log, m);
    SparingBefore(log, m, MostMailsFor(o, fallen, q));
    UnbiddenBefore(o, log, m);
    MostTriedAt(log, m);
    AskedBefore(log, m);
  }

  // ---------------------------------------------------------------- the order of commands

  /** No run of a query to the host ever draws a 503 from this server. */
  ghost predicate KeepsOrder(o: Options, fallen: set<string>, host: string, p: Profile, rd: Reading, helo: string) {
    forall q: Query, log, f ::
      q.mxHost == host && OfQuery(o, fallen, q, log) && LivedThrough(p, rd, helo, log, f) ==> f.state.badSequence == 0
  }

  /** Nothing is drawn out of order: there is nobody to ask, the server lets no transaction be opened, or it
      shows its refusals of a MAIL FROM or makes none. */
  predicate InOrderWith(o: Options, fallen: set<string>, host: string, p: Profile, helo: string) {
    host == "" || Bars(o, p, helo) || LimitShows(p, MostMails(o, fallen, host))
  }

  lemma QueryNeverOutOfOrder(o: Options, fallen: set<string>, q: Query, p: Profile, rd: Reading, helo: string, log: Log, f: Far)
    requires InOrderWith(o, fallen, q.mxHost, p, helo)
    requires OfQuery(o, fallen, q, log) && LivedThrough(p, rd, helo, log, f)
    ensures f.state.badSequence == 0
  {
    if q.mxHost == "" {
    } else if Bars(o, p, helo) {
      BarredThroughout(o, p, rd, helo, log, f);
    } else {
      SparingMore(Start, log, MostMailsFor(o, fallen, q), MostMails(o, fallen, q.mxHost));
      NeverOutOfOrder(p, rd, helo, MostMails(o, fallen, q.mxHost), log, f);
    }
  }

  /** One of many domains, each of its own length, and its one address. */
  function Name(k: nat): string {
    seq(k + 1, _ => 'a')
  }

  function Someone(k: nat): string {
    "x@" + Name(k)
  }

  const EVERYONE := Guests(Name, Someone)

  /** Many domains, one address each. */
  function Crowd(g: Guests, k: nat): seq<DomainGroup> {
    if k == 0 then [] else Crowd(g, k - 1) + [DomainGroup(g.name(k - 1), [g.someone(k - 1)], false)]
  }

  lemma LowerPlain(s: string)
    requires forall i :: 0 <= i < |s| ==> s[i] == 'a'
    ensures Lower(s) == s
  {
  }

  lemma NameIsNormal(k: nat)
    ensures Normal(Name(k)) == Name(k)
  {
    var s := Name(k);
    assert TrimLeft(s) == s && TrimRight(s) == s && TrimDot(s) == s;
    LowerPlain(s);
  }

  /** Every domain, in the form it is compared in, and every address is of a length of its own. */
  ghost predicate Strangers(norm: string -> string, g: Guests) {
    forall k: nat :: |norm(g.name(k))| == k + 1 && |g.someone(k)| == k + 3
  }

  lemma {:induction false} CrowdSize(g: Guests, k: nat)
    ensures |Crowd(g, k)| == k && (k > 0 ==> Crowd(g, k)[..k - 1] == Crowd(g, k - 1))
  {
    if k == 0 {
    } else {
      CrowdSize(g, k - 1);
    }
  }

  /** None of the first `k` groups is of a domain further on, nor lists its address. */
  lemma {:induction false} CrowdApart(norm: string -> string, g: Guests, k: nat, j: nat)
    requires k <= j && Strangers(norm, g)
    ensures !Mentioned(norm, Crowd(g, k), norm(g.name(j))) && g.someone(j) !in Listed(Crowd(g, k))
  {
    if k == 0 {
    } else {
      CrowdApart(norm, g, k - 1, j);
      CrowdSize(g, k);
    }
  }

  lemma ListedMore(norm: string -> string, ins: seq<DomainGroup>, g: DomainGroup, a: string, d: string)
    requires ListedUnder(norm, ins, a, d)
    ensures ListedUnder(norm, ins + [g], a, d)
  {
    assert (ins + [g])[..|ins|] == ins;
  }

  lemma FirstNew(a: string, seen: set<string>)
    requires a !in seen
    ensures a in NewOnes([a], seen)
  {
    assert NewOnes([a][..0], seen) == [];
  }

  lemma CrowdLast(norm: string -> string, g: Guests, j: nat)
    requires Strangers(norm, g)
    ensures ListedUnder(norm, Crowd(g, j + 1), g.someone(j), g.name(j))
  {
    CrowdSize(g, j + 1);
    CrowdApart(norm, g, j, j);
    FirstNew(g.someone(j), Listed(Crowd(g, j)));
  }

  /** Each is listed under its own domain. */
  lemma {:induction false} CrowdListed(norm: string -> string, g: Guests, k: nat, j: nat)
    requires j < k && Strangers(norm, g)
    ensures ListedUnder(norm, Crowd(g, k), g.someone(j), g.name(j))
  {
    if j < k - 1 {
      CrowdListed(norm, g, k - 1, j);
      ListedMore(norm, Crowd(g, k - 1), DomainGroup(g.name(k - 1), [g.someone(k - 1)], false), g.someone(j), g.name(j));
    } else {
      CrowdLast(norm, g, j);
    }
  }

  lemma {:induction false} NamedInCrowd(norm: string -> string, g: Guests, k: nat, n: nat, a: string, d: string)
    requires k <= n && Strangers(norm, g) && (a, d) in FirstNamed(g, k)
    ensures ListedUnder(norm, Crowd(g, n), a, d)
  {
    if a == g.someone(k - 1) && d == g.name(k - 1) {
      CrowdListed(norm, g, n, k - 1);
    } else {
      NamedInCrowd(norm, g, k - 1, n, a, d);
    }
  }

  lemma AsksCrowd(g: Guests, q: Query, k: nat, log: Log)
    requires Strangers(Normal, g) && k > 0 && q.groups == Crowd(g, k)
    requires Pairs(log) == FirstNamed(g, k) && Questions(log) == {}
    ensures q.groups != [] && AsksOnly(q, Start, log)
  {
    CrowdSize(g, k);
    forall p | p in Pairs(log) ensures MayAsk(q, p.0, p.1) {
      NamedInCrowd(Normal, g, k, k, p.0, p.1);
    }
  }

  lemma EveryoneStrange()
    ensures Strangers(Normal, EVERYONE)
  {
    forall k: nat ensures |Normal(Name(k))| == k + 1 && |Someone(k)| == k + 3 {
      NameIsNormal(k);
      assert |Name(k)| == k + 1;
    }
  }

  lemma CrowdIsAsked(g: Guests, q: Query, k: nat)
    requires k > 0 && q.groups == Crowd(g, k)
    ensures Asked(q) != {}
  {
    CrowdSize(g, k);
    assert g.someone(k - 1) in Elems(q.groups[k - 1].emails);
  }

  lemma OutOfOrder(o: Options, fallen: set<string>, q: Query, p: Profile, rd: Reading, helo: string, log: Log, f: Far)
    requires OfQuery(o, fallen, q, log) && LivedThrough(p, rd, helo, log, f) && f.state.badSequence > 0
    ensures !KeepsOrder(o, fallen, q.mxHost, p, rd, helo)
  {
  }

  lemma OfAsked(o: Options, fallen: set<string>, q: Query, log: Log)
    requires AsksOnly(q, Start, log) && At(log).Some? && q.mxHost != "" && Asked(q) != {}
    requires Sparing(Start, log, MostMailsFor(o, fallen, q)) && Unbidden(o, log) == 0 && MostTried(log) <= MaxRcpt(o)
    ensures OfQuery(o, fallen, q, log)
  {
  }

  /** One address in each of many domains, put to a server that hides its limit. */
  lemma CrowdOutOfOrder(o: Options, fallen: set<string>, g: Guests, host: string, p: Profile, rd: Reading, helo: string)
    requires Strangers(Normal, g) && !InOrderWith(o, fallen, host, p, helo)
    ensures !KeepsOrder(o, fallen, host, p, rd, helo)
  {
    var log, f := HiddenLimitBreaksOrder(o, p, rd, helo, g, MostMails(o, fallen, host));
    var q := Query(host, "", [], false, Crowd(g, p.txLimit + 1), 0);
    AsksCrowd(g, q, p.txLimit + 1, log);
    CrowdIsAsked(g, q, p.txLimit + 1);
    OfAsked(o, fallen, q, log);
    OutOfOrder(o, fallen, q, p, rd, helo, log, f);
  }

  /** The prober never draws a 503 from a server exactly when there is no host to ask, the server lets it open
      no transaction, or the server does not answer 250 to a MAIL FROM it refuses, or it allows as many
      transactions as one session may hold. The run that fails is a query of one address in each of many
      domains. */
  lemma KeepsOrderExactlyWhen(o: Options, fallen: set<string>, host: string, p: Profile, rd: Reading, helo: string)
    ensures KeepsOrder(o, fallen, host, p, rd, helo)
            <==> || host == "" || helo == "" || (p.startTLS.Required? && !WillUpgrade(o, p))
                 || p.txLimit <= 0 || p.txReply.code != 250 || p.txLimit >= MostMails(o, fallen, host)
  {
    if InOrderWith(o, fallen, host, p, helo) {
      forall q: Query, log, f | q.mxHost == host && OfQuery(o, fallen, q, log) && LivedThrough(p, rd, helo, log, f)
        ensures f.state.badSequence == 0
      {
        QueryNeverOutOfOrder(o, fallen, q, p, rd, helo, log, f);
      }
    } else {
      EveryoneStrange();
      CrowdOutOfOrder(o, fallen, EVERYONE, host, p, rd, helo);
    }
  }

  // ---------------------------------------------------------------- one recipient domain per transaction

  /** The addresses asked about under one domain are filed under one domain, where a session may hold two, and
      under the bogus ones' where the catch-all question may be asked. */
  ghost predicate Coherent(o: Options, rd: Reading, q: Query) {
    && (MaxRcpt(o) >= 2 ==> forall d, a, b :: MayAsk(q, a, d) && MayAsk(q, b, d) ==> rd.domain(a) == rd.domain(b))
    && (forall d, a :: MayAsk(q, a, d) && MayQuestion(q, d) ==> rd.domain(a) == rd.domain(AtDomain(d)))
  }

  lemma AskedMay(q: Query, log: Log, a: string, d: string)
    requires AsksOnly(q, Start, log) && (a, d) in Pairs(log)
    ensures MayAsk(q, a, d)
  {
    assert (a, d) !in Pairs(Start);
  }

  lemma QuestionedMay(q: Query, log: Log, d: string)
    requires AsksOnly(q, Start, log) && d in Questions(log)
    ensures MayQuestion(q, d)
  {
    assert d !in Questions(Start);
  }

  /** Two RCPTs of one transaction agree: two real addresses, a real one and a bogus one, or two bogus. */
  lemma AskedAgree(rd: Reading, o: Options, q: Query, log: Log, a: string, b: string, d: string)
    requires Coherent(o, rd, q) && AsksOnly(q, Start, log) && (a, d) in Pairs(log) && (b, d) in Pairs(log)
    ensures MaxRcpt(o) >= 2 ==> rd.domain(a) == rd.domain(b)
  {
    AskedMay(q, log, a, d);
    AskedMay(q, log, b, d);
  }

  lemma AskedAndQuestioned(rd: Reading, o: Options, q: Query, log: Log, a: string, b: string, d: string)
    requires FilesBogus(rd) && Coherent(o, rd, q) && AsksOnly(q, Start, log)
    requires (a, d) in Pairs(log) && d in Questions(log) && BogusFor(b, d)
    ensures rd.domain(a) == rd.domain(b)
  {
    AskedMay(q, log, a, d);
    QuestionedMay(q, log, d);
  }

  lemma InsideAgrees(rd: Reading, o: Options, q: Query, log: Log, t: Log, p: Log, p': Log)
    requires FilesBogus(rd) && Coherent(o, rd, q) && At(log).Some? && AsksOnly(q, Start, log) && MostTried(log) <= MaxRcpt(o)
    requires Inside(log, t, p) && Inside(log, t, p')
    ensures rd.domain(p.event.cmd.addr) == rd.domain(p'.event.cmd.addr)
  {
    InsideNamed(log, t, p);
    InsideNamed(log, t, p');
    var a, b, d := p.event.cmd.addr, p'.event.cmd.addr, p.event.cmd.domain;
    if p.event.cmd.Rcpt? && p'.event.cmd.Rcpt? {
      TwoTried(log, t, p, p');
      AskedAgree(rd, o, q, log, a, b, d);
    } else if p.event.cmd.Rcpt? {
      AskedAndQuestioned(rd, o, q, log, a, b, d);
    } else if p'.event.cmd.Rcpt? {
      AskedAndQuestioned(rd, o, q, log, b, a, d);
    }
  }

  /** In every run of a coherent query each transaction keeps to one recipient domain, bogus addresses
      included, and no server ever counts two. */
  lemma QueryKeepsDomainsApart(rd: Reading, o: Options, fallen: set<string>, q: Query, log: Log)
    requires FilesBogus(rd) && Coherent(o, rd, q) && OfQuery(o, fallen, q, log)
    ensures OneDomainEach(rd, log)
    ensures forall p, helo, f :: LivedThrough(p, rd, helo, log, f) ==> f.state.domainLimited == 0 && |f.state.txDomains| <= 1
  {
    forall t, p, p' | Inside(log, t, p) && Inside(log, t, p')
      ensures rd.domain(p.event.cmd.addr) == rd.domain(p'.event.cmd.addr)
    {
      InsideAgrees(rd, o, q, log, t, p, p');
    }
    forall p, helo, f | LivedThrough(p, rd, helo, log, f) ensures f.state.domainLimited == 0 && |f.state.txDomains| <= 1 {
      CountedThroughout(p, rd, helo, log, f);
    }
  }

  /** Nothing was asked yet, and within what a query keeps to. */
  ghost predicate Clean(o: Options, n: nat, log: Log) {
    && Pairs(log) == {} && Questions(log) == {} && Sparing(Start, log, n)
    && Unbidden(o, log) == 0 && Tried(log) == 0 && MostTried(log) == 0
  }

  lemma CleanOn(o: Options, n: nat, log: Log, e: Event)
    requires Clean(o, n, log) && !(e.Ask? && (Costs(e.cmd) || e.cmd.StartTLS? || e.cmd.Rset?)) && Mails(Then(log, e)) <= n
    ensures Clean(o, n, Then(log, e))
  {
  }

  /** Connected and greeted, with one token in hand. */
  lemma Met(o: Options, n: nat) returns (log: Log)
    requires n >= 1
    ensures At(log) == Some(State(true, 1, Greeted)) && Mails(log) == 0 && Clean(o, n, log)
  {
    var leased := Then(Start, Leased);
    CleanOn(o, n, Start, Leased);
    assert At(leased) == Some(State(true, 0, NoLink));
    var paid := Then(leased, Token);
    CleanOn(o, n, leased, Token);
    assert At(paid) == Some(State(true, 1, NoLink));
    var dialled := Then(paid, Dialled("", true));
    CleanOn(o, n, paid, Dialled("", true));
    assert At(dialled) == Some(State(true, 1, Opened));
    var e := Ask(Banner, Some(Reply(220, "")));
    CleanOn(o, n, dialled, e);
    log := Then(dialled, e);
  }

  /** A transaction for `d`, just opened. */
  lemma Begun(o: Options, d: string, n: nat) returns (log: Log)
    requires n >= 1
    ensures At(log) == Some(State(true, 1, Open(d))) && Mails(log) == 1 && Clean(o, n, log) && InTransaction(log, log, d)
  {
    var met := Met(o, n);
    var ehlo, mail := Ask(Ehlo, Some(Reply(250, ""))), Ask(MailFrom(d), Some(Reply(250, "")));
    CleanOn(o, n, met, ehlo);
    var introduced := Then(met, ehlo);
    assert At(introduced) == Some(State(true, 1, Introduced(true))) && Mails(introduced) == 0;
    CleanOn(o, n, introduced, mail);
    log := Then(introduced, mail);
  }

  lemma Differ(rd: Reading, log: Log, t: Log, p: Log, p': Log)
    requires Inside(log, t, p) && Inside(log, t, p') && rd.domain(p.event.cmd.addr) != rd.domain(p'.event.cmd.addr)
    ensures !OneDomainEach(rd, log)
  {
  }

  lemma MayAskIsAsked(q: Query, a: string, d: string)
    requires MayAsk(q, a, d)
    ensures a in Asked(q)
  {
    if q.groups != [] {
      FirstsAreListed(Normal, q.groups, a, Normal(d));
    }
  }

  lemma AsksTwo(q: Query, log: Log, d: string, a: string, cmd: Command)
    requires MayAsk(q, a, d) && (cmd.Rcpt? ==> MayAsk(q, cmd.addr, d)) && (cmd.Bogus? ==> MayQuestion(q, d))
    requires Pairs(log) == if cmd.Rcpt? then {(a, d), (cmd.addr, d)} else {(a, d)}
    requires Questions(log) == if cmd.Bogus? then {d} else {}
    ensures AsksOnly(q, Start, log)
  {
  }

  /** The first RCPT on the token taken before the dial, the second on its own. */
  lemma TwoAsked(o: Options, n: nat, d: string, a: string, cmd: Command) returns (t: Log, first: Log, log: Log)
    requires n >= 1 && Costs(cmd) && cmd.domain == d && (cmd.Bogus? ==> BogusFor(cmd.addr, d))
    ensures At(log).Some? && Sparing(Start, log, n) && Inside(log, t, first) && Inside(log, t, log)
    ensures Unbidden(o, log) == 0 && MostTried(log) == if cmd.Rcpt? then 2 else 1
    ensures first.event.cmd == Rcpt(a, d) && log.event.cmd == cmd
    ensures Pairs(log) == if cmd.Rcpt? then {(a, d), (cmd.addr, d)} else {(a, d)}
    ensures Questions(log) == if cmd.Bogus? then {d} else {}
  {
    t := Begun(o, d, n);
    first := Then(t, Ask(Rcpt(a, d), Some(Reply(250, ""))));
    assert At(first) == Some(State(true, 0, Open(d))) && Sparing(Start, first, n) && Mails(first) == 1;
    assert InTransaction(t, first, d) && Pairs(first) == {(a, d)} && Questions(first) == {};
    assert Tried(first) == 1 && MostTried(first) == 1 && Unbidden(o, first) == 0;
    var paid := Then(first, Token);
    assert At(paid) == Some(State(true, 1, Open(d))) && Sparing(Start, paid, n) && Mails(paid) == 1;
    assert InTransaction(t, paid, d) && Pairs(paid) == {(a, d)} && Questions(paid) == {};
    assert Tried(paid) == 1 && MostTried(paid) == 1 && Unbidden(o, paid) == 0;
    log := Then(paid, Ask(cmd, Some(Reply(550, ""))));
    assert At(log) == Some(State(true, 0, Open(d))) && Sparing(Start, log, n);
    assert Prefix(first, paid) by { assert Prefix(first, first); }
    assert Prefix(first, log);
  }

  /** One address is accepted, and another RCPT of the same transaction is filed under another domain. */
  lemma TwoDomains(rd: Reading, o: Options, fallen: set<string>, q: Query, d: string, a: string, cmd: Command) returns (log: Log)
    requires q.mxHost != "" && (cmd.Rcpt? ==> MaxRcpt(o) >= 2)
    requires (cmd.Rcpt? && MayAsk(q, cmd.addr, d)) || (cmd.Bogus? && MayQuestion(q, d) && BogusFor(cmd.addr, d))
    requires MayAsk(q, a, d) && cmd.domain == d && rd.domain(a) != rd.domain(cmd.addr)
    ensures OfQuery(o, fallen, q, log) && !OneDomainEach(rd, log)
  {
    var t;
    var first;
    t, first, log := TwoAsked(o, MostMailsFor(o, fallen, q), d, a, cmd);
    AsksTwo(q, log, d, a, cmd);
    MayAskIsAsked(q, a, d);
    OfAsked(o, fallen, q, log);
    Differ(rd, log, t, first, log);
  }

  /** Twenty-four zeros and the domain. */
  function SomeBogus(d: string): string {
    seq(LOCAL_LENGTH, _ => '0') + AtDomain(d)
  }

  lemma SomeBogusIsBogus(d: string)
    requires d != ""
    ensures BogusFor(SomeBogus(d), d)
  {
    assert SomeBogus(d)[..LOCAL_LENGTH] == seq(LOCAL_LENGTH, _ => '0');
  }

  lemma NothingInside(log: Log)
    requires log == Start
    ensures forall t, p :: !Inside(log, t, p)
  {
  }

  /** Where the question may be asked, one accepted address filed elsewhere is enough, whatever a session
      may hold. */
  lemma BogusElsewhere(rd: Reading, o: Options, fallen: set<string>, q: Query, d: string, a: string) returns (log: Log)
    requires FilesBogus(rd) && q.mxHost != ""
    requires MayAsk(q, a, d) && MayQuestion(q, d) && rd.domain(a) != rd.domain(AtDomain(d))
    ensures OfQuery(o, fallen, q, log) && !OneDomainEach(rd, log)
  {
    SomeBogusIsBogus(d);
    log := TwoDomains(rd, o, fallen, q, d, a, Bogus(SomeBogus(d), d));
  }

  lemma SomeIncoherent(rd: Reading, o: Options, fallen: set<string>, q: Query) returns (log: Log)
    requires FilesBogus(rd) && q.mxHost != "" && !Coherent(o, rd, q)
    ensures OfQuery(o, fallen, q, log) && !OneDomainEach(rd, log)
  {
    if d, a :| MayAsk(q, a, d) && MayQuestion(q, d) && rd.domain(a) != rd.domain(AtDomain(d)) {
      log := BogusElsewhere(rd, o, fallen, q, d, a);
    } else {
      var d, a, b :| MayAsk(q, a, d) && MayAsk(q, b, d) && rd.domain(a) != rd.domain(b);
      log := TwoDomains(rd, o, fallen, q, d, a, Rcpt(b, d));
    }
  }

  /** Every run of a query keeps each transaction to one recipient domain exactly when there is no host to ask
      or the query is coherent. */
  lemma DomainsApartExactlyWhen(rd: Reading, o: Options, fallen: set<string>, q: Query)
    requires FilesBogus(rd)
    ensures (forall log :: OfQuery(o, fallen, q, log) ==> OneDomainEach(rd, log)) <==> q.mxHost == "" || Coherent(o, rd, q)
  {
    if q.mxHost == "" {
      forall log | OfQuery(o, fallen, q, log) ensures OneDomainEach(rd, log) {
        NothingInside(log);
      }
    } else if Coherent(o, rd, q) {
      forall log | OfQuery(o, fallen, q, log) ensures OneDomainEach(rd, log) {
        QueryKeepsDomainsApart(rd, o, fallen, q, log);
      }
    } else {
      var log := SomeIncoherent(rd, o, fallen, q);
    }
  }

  // ---------------------------------------------------------------- what a caller can check

  /** Every address is of the domain it is listed under. */
  ghost predicate OwnDomains(rd: Reading, q: Query) {
    if q.groups != [] then
      forall g, a :: g in q.groups && a in g.emails ==> rd.domain(a) == rd.domain(AtDomain(g.domain))
    else
      forall a :: a in q.emails ==> rd.domain(a) == rd.domain(AtDomain(q.domain))
  }

  /** No listed domain has white space around it. */
  ghost predicate Trimmed(q: Query) {
    forall g :: g in q.groups ==> TrimSpace(g.domain) == g.domain
  }

  /** An address is filed as the first spelling of the domain it is listed under. */
  lemma FiledAsListed(q: Query, a: string, d: string)
    requires OwnDomains(AsWritten, q) && Trimmed(q) && MayAsk(q, a, d)
    ensures ServerDomain(a) == ServerDomain(AtDomain(d))
  {
    if q.groups != [] {
      FirstsAreListed(Normal, q.groups, a, Normal(d));
      HeadIsListed(Normal, q.groups, d);
      var g :| g in q.groups && Normal(g.domain) == Normal(d) && a in g.emails;
      var h :| h in q.groups && h.domain == d;
      SpelledAlike(g.domain, d);
    }
  }

  lemma OwnDomainsCohere(o: Options, q: Query)
    requires OwnDomains(AsWritten, q) && Trimmed(q)
    ensures Coherent(o, AsWritten, q)
  {
    forall a, d | MayAsk(q, a, d) ensures ServerDomain(a) == ServerDomain(AtDomain(d)) {
      FiledAsListed(q, a, d);
    }
  }

  // ---------------------------------------------------------------- the request itself

  /** A query asked from scratch of a host. At every moment of what it then did, against any server that the
      host may turn out to be: the verbs keep to the strict grammar, nothing is out of order unless the server
      can be got past EHLO and hides its refusals of a MAIL FROM, and if the query is coherent no transaction
      names a second recipient domain. */
  method ProbeServer(o: Options, q: Query, fallen: set<string>) returns (resp: Option<Response>, log: Log)
    ensures resp.None? <==> q.mxHost == "" || Asked(q) == {}
    ensures resp.Some? ==> resp.value.results.Keys == Asked(q) && AllBacked(o.words, log, resp.value.results)
    ensures forall m :: Prefix(m, log) ==> OfQuery(o, fallen, q, m)
    ensures forall m, p, helo, f :: Prefix(m, log) && LivedThrough(p, AsWritten, helo, m, f) ==>
              && Strict(Verbs(m))
              && (InOrderWith(o, fallen, q.mxHost, p, helo) ==> f.state.badSequence == 0)
    ensures Coherent(o, AsWritten, q) ==>
              && OneDomainEach(AsWritten, log)
              && forall m, p, helo, f :: Prefix(m, log) && LivedThrough(p, AsWritten, helo, m, f) ==>
                   f.state.domainLimited == 0 && |f.state.txDomains| <= 1
  {
    var fallen';
    resp, log, fallen' := Probe(o, q, fallen, Start);
    forall m | Prefix(m, log) ensures OfQuery(o, fallen, q, m) {
      OfQueryBefore(o, fallen, q, log, m);
    }
    forall m, p, helo, f | Prefix(m, log) && LivedThrough(p, AsWritten, helo, m, f)
      ensures Strict(Verbs(m)) && (InOrderWith(o, fallen, q.mxHost, p, helo) ==> f.state.badSequence == 0)
    {
      StrictAgainstServer(p, AsWritten, helo, m, f);
      if InOrderWith(o, fallen, q.mxHost, p, helo) {
        QueryNeverOutOfOrder(o, fallen, q, p, AsWritten, helo, m, f);
      }
    }
    if Coherent(o, AsWritten, q) {
      ServerFilesBogus();
      QueryKeepsDomainsApart(AsWritten, o, fallen, q, log);
      forall m, p, helo, f | Prefix(m, log) && LivedThrough(p, AsWritten, helo, m, f)
        ensures f.state.domainLimited == 0 && |f.state.txDomains| <= 1
      {
        QueryKeepsDomainsApart(AsWritten, o, fallen, q, m);
      }
    }
  }
}
