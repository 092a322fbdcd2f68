/** One request: suppressed addresses refused, the rest packed into sessions, a refusal to group
    answered by one domain per session, and every requested address told something exactly once. */
module Request {
  import opened Wrappers
  import opened Replies
  import opened Hosts
  import opened Dialogue
  import opened CatchAll
  import opened SessionSpec
  import opened SessionSteps
  import opened RequestSpec
  import opened Merging
  import opened Packing
  import Prober

  const SuppressedResult := Blank(Suppressed, 0)

  // ---------------------------------------------------------------- suppression

  /** How many positions of the list hold one of the addresses. */
  function Count(emails: seq<string>, among: set<string>): nat {
    if emails == [] then 0
    else Count(emails[..|emails| - 1], among) + (if emails[|emails| - 1] in among then 1 else 0)
  }

  lemma {:induction false} CountMore(emails: seq<string>, a: set<string>, b: set<string>)
    requires a <= b
    ensures Count(emails, a) <= Count(emails, b)
  {
    if emails == [] {
    } else {
      CountMore(emails[..|emails| - 1], a, b);
    }
  }

  lemma {:induction false} CountIsAll(emails: seq<string>, among: set<string>)
    requires forall e :: e in emails ==> e in among
    ensures Count(emails, among) == |emails|
  {
    if emails == [] {
    } else {
      CountIsAll(emails[..|emails| - 1], among);
    }
  }

  lemma CountAll(emails: seq<string>)
    ensures Count(emails, Elems(emails)) == |emails|
  {
    CountIsAll(emails, Elems(emails));
  }

  /** The list falls into the addresses allowed, in order, and those refused. */
  ghost predicate Parted(emails: seq<string>, allowed: seq<string>, refused: set<string>) {
    true == (
      && Elems(emails) == Elems(allowed) + refused && |allowed| <= Count(emails, Elems(allowed))
      && (NoDup(emails) ==> NoDup(allowed) && Elems(allowed) !! refused))
  }

  lemma ApartOne(emails: seq<string>, a: string, allowed: seq<string>, refused: set<string>)
    requires Parted(emails, allowed, refused)
    ensures Parted(emails + [a], allowed, refused + {a}) && Parted(emails + [a], allowed + [a], refused)
  {
    assert (emails + [a])[..|emails|] == emails;
    ElemsConcat(emails, [a]);
    ElemsConcat(allowed, [a]);
    CountMore(emails, Elems(allowed), Elems(allowed + [a]));
    if NoDup(emails + [a]) {
      NoDupSplit(emails, [a]);
      NoDupJoin(allowed, [a]);
    }
  }

  ghost predicate Marked(into: map<string, Result>, into': map<string, Result>, refused: set<string>) {
    true == (
      && into'.Keys == into.Keys + refused
      && forall a :: a in into' ==> into'[a] == if a in refused then SuppressedResult else into[a])
  }

  lemma MarkOne(into: map<string, Result>, into': map<string, Result>, refused: set<string>, a: string)
    requires Marked(into, into', refused)
    ensures Marked(into, into'[a := SuppressedResult], refused + {a})
  {
  }

  /** Splits off the addresses that must not be contacted, each with its result. A list that cannot
      be read does not stop the address. */
  method Unsuppressed(emails: seq<string>, into: map<string, Result>)
    returns (allowed: seq<string>, into': map<string, Result>, ghost refused: set<string>)
    ensures Elems(emails) == Elems(allowed) + refused
    ensures into'.Keys == into.Keys + refused
    ensures forall a :: a in into' ==> into'[a] == if a in refused then SuppressedResult else into[a]
    ensures |allowed| <= Count(emails, Elems(allowed))
    ensures NoDup(emails) ==> NoDup(allowed) && Elems(allowed) !! refused
  {
    allowed, into', refused := emails, into, {};
    CountAll(emails);
    var enforcing: bool := *;
    if !enforcing {
      return;
    }
    allowed := [];
    for k := 0 to |emails|
      invariant Parted(emails[..k], allowed, refused) && Marked(into, into', refused)
    {
      var a := emails[k];
      assert emails[..k + 1] == emails[..k] + [a];
      ApartOne(emails[..k], a, allowed, refused);
      var hit: bool, unreadable: bool := *, *;
      if hit && !unreadable {
        MarkOne(into, into', refused, a);
        into' := into'[a := SuppressedResult];
        refused := refused + {a};
      } else {
        allowed := allowed + [a];
      }
    }
    assert emails[..|emails|] == emails;
  }

  // ---------------------------------------------------------------- one session of a request

  /** What a request keeps to from `log` to `log'`: no connection saw more than `n` MAIL FROMs, nor more
      RCPTs for real addresses than a session may hold, no transaction was reset before an address of it was
      answered about, and STARTTLS was only sent where it is switched on and was offered. */
  ghost predicate Thrifty(o: Options, log: Log, log': Log, n: nat) {
    true == (
      && Sparing(log, log', n) && Unbidden(o, log') == Unbidden(o, log)
      && (MostTried(log') <= MostTried(log) || MostTried(log') <= MaxRcpt(o)))
  }

  lemma ThriftyTransitive(o: Options, a: Log, b: Log, c: Log, m: nat, n: nat)
    requires Thrifty(o, a, b, m) && Thrifty(o, b, c, n)
    ensures Thrifty(o, a, c, if m > n then m else n)
  {
    SparingTransitive(a, b, c, m, n);
  }

  lemma ThriftyMore(o: Options, log: Log, log': Log, m: nat, n: nat)
    requires Thrifty(o, log, log', m) && m <= n
    ensures Thrifty(o, log, log', n)
  {
    SparingMore(log, log', m, n);
  }

  /** What one session did: the groups it was about, the addresses told and those handed back, and the
      verdicts heard. */
  datatype Sitting = Sitting(batch: seq<Group>, told: seq<string>, rest: seq<string>, vs: map<string, Verdict>)

  /** A session ran from one log to another and added its results. */
  ghost predicate Sat(o: Options, log: Log, log': Log, out: map<string, Result>, out': map<string, Result>, s: Sitting) {
    true == (
      && AtRest(log') && Prefix(log, log') && AddsOnly(log, log', s.batch)
      && AllBacked(o.words, log', out') && Unmarked(out') && AllHeard(o.words, log', s.batch, s.vs)
      && Flatten(s.batch) == s.told + s.rest && out'.Keys == out.Keys + Elems(s.told)
      && (forall a :: a in out' ==> if a in s.told then out'[a].kind != Suppressed else a in out && out'[a] == out[a])
      && |Attempts(log')| <= |Attempts(log)| + |s.told| + (if s.rest == [] then 0 else 1)
      && (Filled(s.batch) && |Flatten(s.batch)| <= MaxRcpt(o) ==> Thrifty(o, log, log', |s.batch|)))
  }

  lemma SessionIsThrifty(o: Options, log: Log, log': Log, rc: seq<Attempt>, end: Ending, s: Sitting)
    requires AtRest(log) && Conducted(o, s.batch, log, log', rc, end, s.vs) && Flatten(s.batch) == s.told + s.rest
    requires |rc| <= |s.told| + 1 && (s.rest == [] ==> |rc| <= |s.told|)
    ensures Filled(s.batch) && |Flatten(s.batch)| <= MaxRcpt(o) ==> Thrifty(o, log, log', |s.batch|)
  {
    TriedWithin(log, log');
  }

  lemma Tells(o: Options, batch: seq<Group>, log: Log, log': Log, out: map<string, Result>, results: map<string, Result>,
              rc: seq<Attempt>, end: Ending, s: Sitting)
    requires AtRest(log) && AllBacked(o.words, log, out) && Unmarked(out) && Conducted(o, s.batch, log, log', rc, end, s.vs)
    requires AllBacked(o.words, log', results) && Unmarked(results) && AllContacted(results)
    requires Flatten(s.batch) == s.told + s.rest && results.Keys == Elems(s.told)
    requires |rc| <= |s.told| + 1 && (s.rest == [] ==> |rc| <= |s.told|)
    ensures Sat(o, log, log', out, out + results, s)
  {
    SessionIsThrifty(o, log, log', rc, end, s);
    BackedLater(o.words, log, log', out);
    BackedUnion(o.words, log', out, results);
    assert forall a :: a in results <==> a in s.told;
  }

  /** The results of a session, added to those there were. */
  lemma SessionTells(o: Options, stop: int, batch: seq<Group>, log: Log, log': Log, out: map<string, Result>, rc: seq<Attempt>,
                     end: Ending, rs: seq<Result>, rest: seq<string>, vs: map<string, Verdict>)
    requires AtRest(log) && AllBacked(o.words, log, out) && Unmarked(out) && |rs| <= |Flatten(batch)|
    requires Conducted(o, batch, log, log', rc, end, vs)
    requires Account(o, stop, batch, |batch| > 1, rc, end, rs, rest, LastWord(log'))
    ensures Sat(o, log, log', out, out + Tabulate(Flatten(batch), rs), Sitting(batch, Flatten(batch)[..|rs|], rest, vs))
  {
    SessionSplits(o, stop, batch, |batch| > 1, rc, end, rs, rest, LastWord(log'));
    SessionBacked(o, stop, batch, |batch| > 1, log, log', rc, end, rs, rest, vs);
    SessionUnmarked(o, stop, batch, |batch| > 1, rc, end, rs, rest, LastWord(log'));
    SessionContacts(o, stop, batch, |batch| > 1, rc, end, rs, rest, LastWord(log'));
    Tells(o, batch, log, log', out, Tabulate(Flatten(batch), rs), rc, end, Sitting(batch, Flatten(batch)[..|rs|], rest, vs));
  }

  /** Runs one session and adds its results. The batch splits into the addresses told and those
      handed back; one RCPT at most is spent on an address that is handed back. */
  method RunSession(o: Options, want: int, batch: seq<Group>, log: Log, out: map<string, Result>)
    returns (out': map<string, Result>, vs: map<string, Verdict>, rest: seq<string>, log': Log, fell: bool, ghost told: seq<string>)
    requires AtRest(log) && AllBacked(o.words, log, out) && Unmarked(out)
    ensures Sat(o, log, log', out, out', Sitting(batch, told, rest, vs))
    ensures rest != [] ==> |batch| > 1 && |told| >= |batch[0].addrs| && fell
  {
    ghost var rc, end, rs;
    var results;
    results, vs, rest, log', fell, rc, end, rs := Prober.Session(o, want, batch, |batch| > 1, false, log);
    ghost var stop := PolicyStopFor(o, want);
    told := Flatten(batch)[..|rs|];
    out' := out + results;
    SessionSplits(o, stop, batch, |batch| > 1, rc, end, rs, rest, LastWord(log'));
    SessionTells(o, stop, batch, log, log', out, rc, end, rs, rest, vs);
  }

  lemma SuppressedBacked(w: Wording, log: Log, into: map<string, Result>, refused: set<string>)
    requires forall a :: a in into ==> a in refused && into[a] == SuppressedResult
    ensures AllBacked(w, log, into) && Unmarked(into)
  {
  }

  /** Writes one verdict on every result. */
  method Mark(w: Wording, ghost log: Log, out: map<string, Result>, v: Verdict) returns (out': map<string, Result>)
    requires AllBacked(w, log, out) && Unmarked(out)
    ensures out'.Keys == out.Keys && AllBacked(w, log, out')
    ensures forall a :: a in out' ==> out'[a] == WithVerdict(out[a], v)
  {
    out' := out;
    if Settled(v) {
      out' := map a | a in out :: WithVerdict(out[a], v);
      forall a | a in out' ensures Backed(w, log, a, out'[a]) {
        WithVerdictBacked(w, log, a, out[a], v);
      }
    }
  }

  // ---------------------------------------------------------------- a single-domain request

  lemma {:induction false} JoinedStep(chunks: seq<seq<string>>, k: nat)
    requires k < |chunks|
    ensures Joined(chunks[..k + 1]) == Joined(chunks[..k]) + chunks[k]
  {
    assert chunks[..k + 1][..k] == chunks[..k];
  }

  /** Every RCPT since `log` was for one of the addresses, under the domain, or a bogus one of the domain
      where its catch-all question is wanted. */
  ghost predicate AskedUnder(log: Log, log': Log, who: set<string>, domain: string, need: bool) {
    && (forall p :: p in Pairs(log') && p !in Pairs(log) ==> p.0 in who && p.1 == domain)
    && (forall d :: d in Questions(log') && d !in Questions(log) ==> need && d == domain)
  }

  /** Exactly the addresses not among those contacted were suppressed. */
  ghost predicate ToldApart(out: map<string, Result>, contacted: set<string>) {
    forall a :: a in out ==> (out[a].kind == Suppressed <==> a !in contacted)
  }

  /** Where a single-domain request stands: the addresses `done` were contacted, at most one RCPT each, and
      the verdict is the known one, the one heard, or none yet. */
  ghost predicate UnderWay(o: Options, domain: string, needCatchAll: bool, known: bool, log: Log, log': Log,
                           out: map<string, Result>, refused: set<string>, done: seq<string>, settled: bool, verdict: Verdict)
  {
    true == (
      && AtRest(log') && Prefix(log, log') && Thrifty(o, log, log', 1)
      && AllBacked(o.words, log', out) && Unmarked(out)
      && out.Keys == refused + Elems(done) && ToldApart(out, Elems(done))
      && AskedUnder(log, log', Elems(done), domain, needCatchAll)
      && |Attempts(log')| <= |Attempts(log)| + |done|
      && (if known then settled && verdict == CoinFlip
          else if settled then needCatchAll && Heard(o.words, log', domain, verdict)
          else verdict == Unsettled))
  }

  lemma AskedMore(log: Log, mid: Log, log': Log, g: Group, done: seq<string>, domain: string, need: bool)
    requires AskedUnder(log, mid, Elems(done), domain, need) && AddsOnly(mid, log', [g])
    requires g.domain == domain && (g.askCatchAll ==> need)
    ensures AskedUnder(log, log', Elems(done + g.addrs), domain, need)
  {
    ElemsConcat(done, g.addrs);
    assert forall h :: h in [g] ==> h == g;
  }

  lemma ApartMore(out: map<string, Result>, out': map<string, Result>, done: seq<string>, chunk: seq<string>)
    requires ToldApart(out, Elems(done))
    requires forall a :: a in out' ==> if a in chunk then out'[a].kind != Suppressed else a in out && out'[a] == out[a]
    ensures ToldApart(out', Elems(done + chunk))
  {
    ElemsConcat(done, chunk);
    assert forall a :: a in chunk <==> a in Elems(chunk);
  }

  /** One session of a single-domain request, asking the catch-all question while it is open. */
  method ProbeChunk(o: Options, want: int, domain: string, chunk: seq<string>, needCatchAll: bool, ghost known: bool,
                    ghost log: Log, log0: Log, out: map<string, Result>, ghost refused: set<string>, ghost done: seq<string>,
                    settled: bool, verdict: Verdict)
    returns (log': Log, out': map<string, Result>, settled': bool, verdict': Verdict)
    requires 0 < |chunk| <= MaxRcpt(o)
    requires UnderWay(o, domain, needCatchAll, known, log, log0, out, refused, done, settled, verdict)
    ensures UnderWay(o, domain, needCatchAll, known, log, log', out', refused, done + chunk, settled', verdict')
  {
    settled', verdict' := settled, verdict;
    var ask := needCatchAll && !settled;
    var g := Group(domain, chunk, ask);
    FlattenOne(g);
    ghost var told;
    var vs, rest, fell;
    out', vs, rest, log', fell, told := RunSession(o, want, [g], log0, out);
    assert rest == [] && told == chunk;
    PrefixTransitive(log, log0, log');
    assert Filled([g]);
    ThriftyTransitive(o, log, log0, log', 1, 1);
    AskedMore(log, log0, log', g, done, domain, needCatchAll);
    ApartMore(out, out', done, chunk);
    ElemsConcat(done, chunk);
    if settled {
      if !known {
        HeardLater(o.words, log0, log', domain, verdict);
      }
    } else if ask && domain in vs && Settled(vs[domain]) {
      verdict', settled' := vs[domain], true;
    }
  }

  /** The chunks of one domain's addresses, a session each; the catch-all question is asked until it is
      settled. */
  method ProbeChunks(o: Options, want: int, domain: string, chunks: seq<seq<string>>, needCatchAll: bool, known: bool,
                     log: Log, out: map<string, Result>, ghost refused: set<string>, verdict: Verdict)
    returns (log': Log, out': map<string, Result>, verdict': Verdict)
    requires UnderWay(o, domain, needCatchAll, known, log, log, out, refused, [], known, verdict)
    requires forall k :: 0 <= k < |chunks| ==> 0 < |chunks[k]| <= MaxRcpt(o)
    ensures exists settled ::
              UnderWay(o, domain, needCatchAll, known, log, log', out', refused, Joined(chunks), settled, verdict')
  {
    var settled := known;
    log', out', verdict' := log, out, verdict;
    for c := 0 to |chunks|
      invariant UnderWay(o, domain, needCatchAll, known, log, log', out', refused, Joined(chunks[..c]), settled, verdict')
    {
      log', out', settled, verdict' :=
        ProbeChunk(o, want, domain, chunks[c], needCatchAll, known, log, log', out', refused, Joined(chunks[..c]), settled, verdict');
      JoinedStep(chunks, c);
    }
    assert chunks[..|chunks|] == chunks;
  }

  /** One domain's addresses, in sessions of at most the configured size. Every address gets a
      result; no verdict is without its reply; only addresses that may be contacted are, each at most as
      often as it is listed, under this domain; and the catch-all answer written on the results is the
      known one, or one heard from this domain. */
  method ProbeDomain(o: Options, want: int, domain: string, emails: seq<string>, needCatchAll: bool, log: Log)
    returns (out: map<string, Result>, log': Log, allowed: seq<string>, known: bool, verdict: Verdict)
    requires AtRest(log) && emails != []
    ensures AtRest(log') && Prefix(log, log') && Thrifty(o, log, log', 1)
    ensures out.Keys == Elems(emails) && ToldApart(out, Elems(allowed))
    ensures AllBacked(o.words, log', out)
    ensures AskedUnder(log, log', Elems(allowed), domain, needCatchAll)
    ensures |Attempts(log')| <= |Attempts(log)| + |allowed| && |allowed| <= Count(emails, Elems(allowed))
    ensures Elems(allowed) <= Elems(emails)
    ensures forall a :: a in out ==> out[a].catchAll == verdict.catchAll && out[a].randomiser == verdict.randomiser
    ensures if known then verdict == CoinFlip
            else verdict == Unsettled || (needCatchAll && Heard(o.words, log', domain, verdict))
  {
    log', known, verdict := log, false, Unsettled;
    ghost var refused;
    allowed, out, refused := Unsuppressed(emails, map[]);
    SuppressedBacked(o.words, log, out, refused);
    if allowed == [] {
      return;
    }
    known := *;
    if known {
      verdict := CoinFlip;
    }
    var chunks := Chunks(allowed, MaxRcpt(o));
    assert refused + Elems([]) == refused;
    log', out, verdict := ProbeChunks(o, want, domain, chunks, needCatchAll, known, log', out, refused, verdict);
    out := Mark(o.words, log', out, verdict);
  }

  // ---------------------------------------------------------------- a multi-domain request

  /** `domainOf` names the domain of every address in the first `k` groups, and of no other. */
  ghost predicate Labels(groups: seq<DomainGroup>, home: map<string, nat>, k: nat, domainOf: map<string, string>) {
    && (forall e :: e in domainOf <==> e in home && home[e] < k)
    && (forall e :: e in domainOf ==> home[e] < |groups| && domainOf[e] == groups[home[e]].domain)
  }

  /** Every address is labelled with the first spelling of the domain it is first listed under. */
  lemma LabelsMean(norm: string -> string, ins: seq<DomainGroup>, groups: seq<DomainGroup>, home: map<string, nat>,
                   domainOf: map<string, string>)
    requires Housed(groups, home) && Fed(norm, ins, groups) && Spelled(groups, Heads(norm, ins))
    requires Labels(groups, home, |groups|, domainOf)
    ensures forall a :: a in domainOf ==> ListedUnder(norm, ins, a, domainOf[a])
  {
    forall a | a in domainOf ensures ListedUnder(norm, ins, a, domainOf[a]) {
      var i := home[a];
      assert a in groups[i].emails && domainOf[a] == groups[i].domain == Heads(norm, ins)[i];
    }
  }

  /** The queue and the results together hold every labelled address, once. */
  ghost predicate Holding(queue: seq<Group>, keys: set<string>, domainOf: map<string, string>) {
    true == (
      && NoDup(Flatten(queue)) && Elems(Flatten(queue)) !! keys
      && Elems(Flatten(queue)) + keys == domainOf.Keys
      && WellKept(queue, domainOf))
  }

  ghost predicate Queued(groups: seq<DomainGroup>, home: map<string, nat>, k: nat, out: map<string, Result>,
                         domainOf: map<string, string>, queue: seq<Group>)
  {
    true == (
      && Labels(groups, home, k, domainOf)
      && Holding(queue, out.Keys, domainOf)
      && (forall a :: a in out ==> out[a] == SuppressedResult))
  }

  lemma WellKeptMore(queue: seq<Group>, g: Group, domainOf: map<string, string>, domainOf': map<string, string>)
    requires WellKept(queue, domainOf)
    requires forall e :: e in domainOf ==> e in domainOf' && domainOf'[e] == domainOf[e]
    requires forall e :: e in g.addrs ==> e in domainOf' && domainOf'[e] == g.domain
    ensures WellKept(queue, domainOf') && (g.addrs != [] ==> WellKept(queue + [g], domainOf'))
  {
    forall h | h in queue + [g] ensures h in queue || h == g {
    }
  }

  lemma HoldingMore(queue: seq<Group>, keys: set<string>, domainOf: map<string, string>, g: Group, refused: set<string>,
                    domainOf': map<string, string>)
    requires Holding(queue, keys, domainOf) && NoDup(g.addrs) && Elems(g.addrs) !! refused
    requires domainOf.Keys !! Elems(g.addrs) + refused
    requires domainOf'.Keys == domainOf.Keys + (Elems(g.addrs) + refused)
    requires forall e :: e in domainOf ==> domainOf'[e] == domainOf[e]
    requires forall e :: e in g.addrs ==> e in domainOf' && domainOf'[e] == g.domain
    ensures Holding(if g.addrs == [] then queue else queue + [g], keys + refused, domainOf')
  {
    FlattenConcat(queue, [g]);
    FlattenOne(g);
    ElemsConcat(Flatten(queue), g.addrs);
    NoDupJoin(Flatten(queue), g.addrs);
    WellKeptMore(queue, g, domainOf, domainOf');
    if g.addrs == [] {
      assert Elems(g.addrs) == {};
    }
  }

  lemma LabelsMore(groups: seq<DomainGroup>, home: map<string, nat>, k: nat, domainOf: map<string, string>)
    requires k < |groups| && Housed(groups, home) && Labels(groups, home, k, domainOf)
    ensures var added := map e | e in Elems(groups[k].emails) :: groups[k].domain;
            && Labels(groups, home, k + 1, domainOf + added)
            && domainOf.Keys !! Elems(groups[k].emails)
            && (domainOf + added).Keys == domainOf.Keys + Elems(groups[k].emails)
            && (forall e :: e in domainOf ==> (domainOf + added)[e] == domainOf[e])
  {
    assert forall e :: e in Elems(groups[k].emails) <==> e in home && home[e] == k;
  }

  lemma QueuedMore(groups: seq<DomainGroup>, home: map<string, nat>, k: nat, out: map<string, Result>,
                   domainOf: map<string, string>, queue: seq<Group>,
                   allowed: seq<string>, refused: set<string>, out': map<string, Result>)
    requires k < |groups| && Housed(groups, home) && Queued(groups, home, k, out, domainOf, queue)
    requires Elems(groups[k].emails) == Elems(allowed) + refused && NoDup(allowed) && Elems(allowed) !! refused
    requires out'.Keys == out.Keys + refused
    requires forall a :: a in out' ==> out'[a] == if a in refused then SuppressedResult else out[a]
    ensures Queued(groups, home, k + 1, out', domainOf + map e | e in Elems(groups[k].emails) :: groups[k].domain,
                   if allowed == [] then queue else queue + [Group(groups[k].domain, allowed, false)])
  {
    LabelsMore(groups, home, k, domainOf);
    HoldingMore(queue, out.Keys, domainOf, Group(groups[k].domain, allowed, false), refused,
                domainOf + map e | e in Elems(groups[k].emails) :: groups[k].domain);
  }

  /** Some group of this domain asks the catch-all question. */
  ghost predicate Wanted(groups: seq<DomainGroup>, d: string) {
    exists g :: g in groups && g.domain == d && g.needCatchAll
  }

  ghost predicate NeedsWanted(groups: seq<DomainGroup>, need: map<string, bool>) {
    true == forall d :: d in need && need[d] ==> Wanted(groups, d)
  }

  lemma NeedsMore(groups: seq<DomainGroup>, k: nat, need: map<string, bool>)
    requires k < |groups| && NeedsWanted(groups, need)
    ensures NeedsWanted(groups, need[groups[k].domain := groups[k].needCatchAll])
  {
    assert groups[k] in groups;
  }

  /** Only domains whose catch-all question the request wants are marked as needing it. */
  lemma NeedsMean(norm: string -> string, ins: seq<DomainGroup>, groups: seq<DomainGroup>, need: map<string, bool>)
    requires Fed(norm, ins, groups) && Spelled(groups, Heads(norm, ins)) && NeedsWanted(groups, need)
    ensures forall d :: d in need && need[d] ==> NeededBy(norm, ins, d)
  {
    forall d | d in need && need[d] ensures NeededBy(norm, ins, d) {
      assert Wanted(groups, d);
      var i :| 0 <= i < |groups| && groups[i].domain == d && groups[i].needCatchAll;
      assert Heads(norm, ins)[i] == d;
    }
  }

  /** Refuses the suppressed and queues the rest, domain by domain. */
  method BuildQueue(groups: seq<DomainGroup>, ghost home: map<string, nat>)
    returns (out: map<string, Result>, domainOf: map<string, string>, need: map<string, bool>, queue: seq<Group>)
    requires Housed(groups, home)
    ensures Queued(groups, home, |groups|, out, domainOf, queue)
    ensures domainOf.Keys == home.Keys
    ensures NeedsWanted(groups, need)
  {
    out, domainOf, need, queue := map[], map[], map[], [];
    for k := 0 to |groups|
      invariant Queued(groups, home, k, out, domainOf, queue)
      invariant NeedsWanted(groups, need)
    {
      var g := groups[k];
      ghost var out0, domainOf0, queue0 := out, domainOf, queue;
      domainOf := domainOf + map e | e in Elems(g.emails) :: g.domain;
      NeedsMore(groups, k, need);
      need := need[g.domain := g.needCatchAll];
      var allowed;
      ghost var refused;
      allowed, out, refused := Unsuppressed(g.emails, out);
      if |allowed| > 0 {
        queue := queue + [Group(g.domain, allowed, false)];
      }
      QueuedMore(groups, home, k, out0, domainOf0, queue0, allowed, refused, out);
    }
  }

  /** What a multi-domain request is to do: the host, the domain of every address, the domains whose
      catch-all question is wanted, the addresses that may be contacted, and whether the host is known to
      answer by coin flip. */
  datatype Task = Task(host: string, domainOf: map<string, string>, need: map<string, bool>, permitted: set<string>, known: bool)

  /** Where it stands: what was done and told, what is queued and what was heard, whether grouping was
      refused, and the families fallen back so far. */
  datatype Progress = Progress(log: Log, out: map<string, Result>, queue: seq<Group>, verdicts: map<string, Verdict>,
                               refused: bool, fallen: set<string>)

  /** Every RCPT since `log` asked about an address that may be contacted, under its own domain, or about a
      bogus one of a domain that needs it. */
  ghost predicate PairsLabelled(log: Log, log': Log, t: Task) {
    && (forall p :: p in Pairs(log') && p !in Pairs(log) ==>
          p.0 in t.permitted && p.0 in t.domainOf && t.domainOf[p.0] == p.1)
    && (forall d :: d in Questions(log') && d !in Questions(log) ==> d in t.need && t.need[d])
  }

  ghost predicate VerdictsWanted(w: Wording, log: Log, need: map<string, bool>, verdicts: map<string, Verdict>) {
    forall d :: d in verdicts ==> Heard(w, log, d, verdicts[d]) && d in need && need[d] && Settled(verdicts[d])
  }

  /** The most MAIL FROMs one connection may see. */
  function MostMails(o: Options, fallen: set<string>, host: string): (n: nat)
    ensures n >= 1
  {
    if Grouping(o, fallen, host).1 then MaxRcpt(o) else 1
  }

  /** Where a multi-domain request stands: what is queued and what is told make up the request, and
      every RCPT sent has taken an address off the queue, save one once grouping was refused. */
  ghost predicate Draining(o: Options, log: Log, fallen: set<string>, t: Task, p: Progress) {
    true == (
      && AtRest(p.log) && Prefix(log, p.log) && PairsLabelled(log, p.log, t)
      && Thrifty(o, log, p.log, MostMails(o, fallen, t.host)) && fallen <= p.fallen
      && AllBacked(o.words, p.log, p.out) && Unmarked(p.out) && ToldApart(p.out, t.permitted)
      && Holding(p.queue, p.out.Keys, t.domainOf) && Elems(Flatten(p.queue)) <= t.permitted
      && VerdictsWanted(o.words, p.log, t.need, p.verdicts)
      && |Attempts(p.log)| + |Flatten(p.queue)| <= |Attempts(log)| + |t.permitted| + (if p.refused then 1 else 0))
  }

  /** Marks which groups of a batch still have their catch-all question to ask. */
  method Asking(batch: seq<Group>, need: map<string, bool>, known: bool, verdicts: map<string, Verdict>)
    returns (out: seq<Group>)
    ensures |out| == |batch| && Flatten(out) == Flatten(batch)
    ensures forall i :: 0 <= i < |batch| ==>
              out[i] == batch[i].(askCatchAll := batch[i].domain in need && need[batch[i].domain]
                                                 && !known && batch[i].domain !in verdicts)
  {
    out := [];
    for i := 0 to |batch|
      invariant |out| == i && Flatten(out) == Flatten(batch[..i])
      invariant forall j :: 0 <= j < i ==>
                  out[j] == batch[j].(askCatchAll := batch[j].domain in need && need[batch[j].domain]
                                                     && !known && batch[j].domain !in verdicts)
    {
      var g := batch[i];
      var g' := g.(askCatchAll := g.domain in need && need[g.domain] && !known && g.domain !in verdicts);
      assert (out + [g'])[..i] == out && batch[..i + 1][..i] == batch[..i];
      out := out + [g'];
    }
    assert batch[..|batch|] == batch;
  }

  lemma LabelledAfter(log: Log, was: Log, log': Log, batch: seq<Group>, t: Task)
    requires PairsLabelled(log, was, t) && AddsOnly(was, log', batch) && WellKept(batch, t.domainOf)
    requires forall g, a :: g in batch && a in g.addrs ==> a in t.permitted
    requires forall g :: g in batch && g.askCatchAll ==> g.domain in t.need && t.need[g.domain]
    ensures PairsLabelled(log, log', t)
  {
  }

  lemma WellKeptAsking(batch: seq<Group>, out: seq<Group>, domainOf: map<string, string>)
    requires WellKept(batch, domainOf) && |out| == |batch|
    requires forall i :: 0 <= i < |batch| ==> out[i].domain == batch[i].domain && out[i].addrs == batch[i].addrs
    ensures WellKept(out, domainOf)
  {
    forall g | g in out ensures exists h :: h in batch && h.domain == g.domain && h.addrs == g.addrs {
      var i :| 0 <= i < |out| && out[i] == g;
      assert batch[i] in batch;
    }
  }

  lemma BackInLine(queue: seq<Group>, left: seq<Group>, back: seq<Group>, told: seq<string>, rest: seq<string>)
    requires Flatten(queue) == told + rest + Flatten(left) && Flatten(back) == rest
    ensures Flatten(queue) == told + Flatten(back + left)
  {
    FlattenConcat(back, left);
  }

  /** After a session: the told leave the queue, the handed back return to its front. */
  lemma HoldingAfter(queue: seq<Group>, queue': seq<Group>, keys: set<string>, domainOf: map<string, string>, told: seq<string>)
    requires Holding(queue, keys, domainOf) && WellKept(queue', domainOf)
    requires Flatten(queue) == told + Flatten(queue')
    ensures Holding(queue', keys + Elems(told), domainOf)
    ensures Elems(told) <= Elems(Flatten(queue)) && Elems(Flatten(queue')) <= Elems(Flatten(queue))
  {
    NoDupSplit(told, Flatten(queue'));
    ElemsConcat(told, Flatten(queue'));
  }

  lemma VerdictsAfter(w: Wording, was: Log, log': Log, batch: seq<Group>, need: map<string, bool>,
                      verdicts: map<string, Verdict>, vs: map<string, Verdict>)
    requires VerdictsWanted(w, was, need, verdicts) && AtRest(was) && Prefix(was, log') && AllHeard(w, log', batch, vs)
    requires forall g :: g in batch && g.askCatchAll ==> g.domain in need && need[g.domain]
    ensures VerdictsWanted(w, log', need, verdicts + map d | d in vs && Settled(vs[d]) :: vs[d])
  {
    forall d | d in verdicts ensures Heard(w, log', d, verdicts[d]) {
      HeardLater(w, was, log', d, verdicts[d]);
    }
  }

  lemma {:induction false} FlattenHas(groups: seq<Group>, g: Group, a: string)
    requires g in groups && a in g.addrs
    ensures a in Flatten(groups)
  {
    if g != groups[|groups| - 1] {
      FlattenHas(groups[..|groups| - 1], g, a);
    }
  }

  lemma BatchPermitted(queue: seq<Group>, batch: seq<Group>, rest: seq<string>, permitted: set<string>)
    requires Flatten(queue) == Flatten(batch) + rest && Elems(Flatten(queue)) <= permitted
    ensures forall g, a :: g in batch && a in g.addrs ==> a in permitted
  {
    ElemsConcat(Flatten(batch), rest);
    forall g, a | g in batch && a in g.addrs ensures a in permitted {
      FlattenHas(batch, g, a);
      assert a in Elems(Flatten(batch));
    }
  }

  lemma AskedOnlyWanted(taken: seq<Group>, batch: seq<Group>, need: map<string, bool>, known: bool, verdicts: map<string, Verdict>)
    requires |batch| == |taken|
    requires forall i :: 0 <= i < |taken| ==>
               batch[i] == taken[i].(askCatchAll := taken[i].domain in need && need[taken[i].domain]
                                                    && !known && taken[i].domain !in verdicts)
    ensures forall g :: g in batch && g.askCatchAll ==> g.domain in need && need[g.domain]
  {
    forall g | g in batch && g.askCatchAll ensures g.domain in need && need[g.domain] {
      var i :| 0 <= i < |batch| && batch[i] == g;
    }
  }

  /** The groups of the next session, with their catch-all questions marked, and what stays queued. */
  method NextBatch(o: Options, ghost log: Log, ghost fallen: set<string>, t: Task, p: Progress, grouped: bool)
    returns (batch: seq<Group>, left: seq<Group>)
    requires Draining(o, log, fallen, t, p) && p.queue != []
    ensures Flatten(batch) + Flatten(left) == Flatten(p.queue) && batch != []
    ensures |batch| <= (if grouped then MaxRcpt(o) else 1) && Filled(batch) && |Flatten(batch)| <= MaxRcpt(o)
    ensures WellKept(batch, t.domainOf) && WellKept(left, t.domainOf)
    ensures forall g :: g in batch && g.askCatchAll ==> g.domain in t.need && t.need[g.domain]
  {
    var taken;
    taken, left := TakeSession(p.queue, MaxRcpt(o), grouped, t.domainOf);
    batch := Asking(taken, t.need, t.known, p.verdicts);
    WellKeptAsking(taken, batch, t.domainOf);
    WellKeptFlatten(batch, t.domainOf);
    AskedOnlyWanted(taken, batch, t.need, t.known, p.verdicts);
  }

  lemma SatSplits(o: Options, log: Log, log': Log, out: map<string, Result>, out': map<string, Result>, s: Sitting,
                  domainOf: map<string, string>)
    requires Sat(o, log, log', out, out', s) && Filled(s.batch) && WellKept(s.batch, domainOf) && s.batch != []
    requires |Flatten(s.batch)| <= MaxRcpt(o) && (s.rest != [] ==> |s.told| >= |s.batch[0].addrs|)
    ensures Thrifty(o, log, log', |s.batch|) && s.told != [] && forall a :: a in s.rest ==> a in domainOf
  {
    WellKeptFlatten(s.batch, domainOf);
    assert forall a :: a in s.rest ==> a in Flatten(s.batch);
    assert s.batch[0] in s.batch;
  }

  lemma ApartAfter(out: map<string, Result>, out': map<string, Result>, permitted: set<string>, told: seq<string>)
    requires ToldApart(out, permitted) && Elems(told) <= permitted
    requires forall a :: a in out' ==> if a in told then out'[a].kind != Suppressed else a in out && out'[a] == out[a]
    ensures ToldApart(out', permitted)
  {
    assert forall a :: a in told ==> a in Elems(told);
  }

  /** A session's outcome, put back into the request. */
  lemma RoundDone(o: Options, log: Log, fallen: set<string>, t: Task, p: Progress, p': Progress, s: Sitting,
                  left: seq<Group>, back: seq<Group>, n: nat)
    requires Draining(o, log, fallen, t, p) && Sat(o, p.log, p'.log, p.out, p'.out, s)
    requires Thrifty(o, p.log, p'.log, n) && n <= MostMails(o, fallen, t.host) && p.fallen <= p'.fallen
    requires p'.queue == back + left && p'.refused == (p.refused || s.rest != []) && (s.rest != [] ==> !p.refused)
    requires p'.verdicts == p.verdicts + map d | d in s.vs && Settled(s.vs[d]) :: s.vs[d]
    requires WellKept(s.batch, t.domainOf) && WellKept(left, t.domainOf) && WellKept(back, t.domainOf)
    requires Flatten(p.queue) == Flatten(s.batch) + Flatten(left) && Flatten(back) == s.rest
    requires forall g :: g in s.batch && g.askCatchAll ==> g.domain in t.need && t.need[g.domain]
    ensures Draining(o, log, fallen, t, p')
    ensures |Flatten(p'.queue)| == |Flatten(p.queue)| - |s.told|
  {
    PrefixTransitive(log, p.log, p'.log);
    ThriftyTransitive(o, log, p.log, p'.log, MostMails(o, fallen, t.host), n);
    BatchPermitted(p.queue, s.batch, Flatten(left), t.permitted);
    LabelledAfter(log, p.log, p'.log, s.batch, t);
    VerdictsAfter(o.words, p.log, p'.log, s.batch, t.need, p.verdicts, s.vs);
    assert Flatten(p.queue) == s.told + s.rest + Flatten(left);
    BackInLine(p.queue, left, back, s.told, s.rest);
    WellKeptJoin(back, left, t.domainOf);
    HoldingAfter(p.queue, back + left, p.out.Keys, t.domainOf, s.told);
    ApartAfter(p.out, p'.out, t.permitted, s.told);
  }

  /** One round: the next session's groups, the session, and what it handed back put first in line. Once
      grouping was refused, or the family has fallen back, the session is about one domain. */
  method Round(o: Options, want: int, ghost log: Log, ghost fallen: set<string>, t: Task, p: Progress) returns (p': Progress)
    requires Draining(o, log, fallen, t, p) && p.queue != []
    ensures Draining(o, log, fallen, t, p')
    ensures |Flatten(p'.queue)| < |Flatten(p.queue)|
    ensures p.refused || !Grouping(o, p.fallen, t.host).1 ==> Thrifty(o, p.log, p'.log, 1)
    ensures p'.refused && !p.refused && Grouping(o, p'.fallen, t.host).0 != "" ==> !Grouping(o, p'.fallen, t.host).1
  {
    var others: set<string> := *;
    var fallen' := p.fallen + others;
    var (family, may) := Grouping(o, fallen', t.host);
    var grouped := may && !p.refused;
    var batch, left := NextBatch(o, log, fallen, t, p, grouped);
    ghost var told;
    var vs, rest, out', log', fell;
    out', vs, rest, log', fell, told := RunSession(o, want, batch, p.log, p.out);
    if fell && family != "" {
      fallen' := fallen' + {family};
    }
    ghost var s := Sitting(batch, told, rest, vs);
    SatSplits(o, p.log, log', p.out, out', s, t.domainOf);
    var back := Regrouped(rest, t.domainOf);
    p' := Progress(log', out', back + left, p.verdicts + map d | d in vs && Settled(vs[d]) :: vs[d],
                   p.refused || rest != [], fallen');
    ThriftyMore(o, p.log, log', |batch|, if grouped then MaxRcpt(o) else 1);
    RoundDone(o, log, fallen, t, p, p', s, left, back, if grouped then MaxRcpt(o) else 1);
  }

  // ---------------------------------------------------------------- the verdicts of a whole request

  /** The catch-all verdict an address is given: the host's, when it is known or was heard to answer by
      coin flip, whichever domain gave it away; otherwise its own domain's, if one was heard. */
  ghost predicate Judged(known: bool, verdicts: map<string, Verdict>, domainOf: map<string, string>, out: map<string, Result>) {
    forall a :: a in out && a in domainOf ==>
      var v := if known || CoinFlip in verdicts.Values then CoinFlip
               else if domainOf[a] in verdicts then verdicts[domainOf[a]] else Unsettled;
      out[a].catchAll == v.catchAll && out[a].randomiser == v.randomiser
  }

  /** Writes the verdicts on the results. */
  method Judge(w: Wording, ghost log: Log, known: bool, verdicts: map<string, Verdict>, ghost need: map<string, bool>,
               domainOf: map<string, string>, out: map<string, Result>)
    returns (out': map<string, Result>)
    requires AllBacked(w, log, out) && Unmarked(out) && VerdictsWanted(w, log, need, verdicts)
    requires out.Keys == domainOf.Keys
    ensures out'.Keys == out.Keys && AllBacked(w, log, out')
    ensures Judged(known, verdicts, domainOf, out')
    ensures forall a :: a in out ==> out'[a].kind == out[a].kind
  {
    var condemned: Option<Verdict> := if known then Some(CoinFlip) else None;
    if exists d :: d in verdicts && verdicts[d].randomiser == Some(true) {
      var d :| d in verdicts && verdicts[d].randomiser == Some(true);
      HeardIsSettled(w, log, d, verdicts[d]);
      condemned := Some(verdicts[d]);
      assert CoinFlip in verdicts.Values;
    }
    out' := map a | a in out ::
      if condemned.Some? then WithVerdict(out[a], condemned.value)
      else if domainOf[a] in verdicts then WithVerdict(out[a], verdicts[domainOf[a]])
      else out[a];
    forall a | a in out' ensures Backed(w, log, a, out'[a]) {
      if condemned.Some? {
        WithVerdictBacked(w, log, a, out[a], condemned.value);
      } else if domainOf[a] in verdicts {
        WithVerdictBacked(w, log, a, out[a], verdicts[domainOf[a]]);
      }
    }
  }

  lemma {:induction false} NoDupSize(s: seq<string>)
    requires NoDup(s)
    ensures |Elems(s)| == |s|
  {
    if s == [] {
    } else {
      var init := s[..|s| - 1];
      NoDupSize(init);
      assert s == init + [s[|s| - 1]];
      ElemsConcat(init, [s[|s| - 1]]);
      NoDupSplit(init, [s[|s| - 1]]);
      assert Elems([s[|s| - 1]]) == {s[|s| - 1]};
    }
  }

  lemma QueueSize(queue: seq<Group>, keys: set<string>, domainOf: map<string, string>)
    requires Holding(queue, keys, domainOf)
    ensures |Elems(Flatten(queue))| == |Flatten(queue)|
    ensures Elems(Flatten(queue)) == domainOf.Keys - keys
    ensures queue == [] <==> Elems(Flatten(queue)) == {}
  {
    NoDupSize(Flatten(queue));
    WellKeptFlatten(queue, domainOf);
  }

  lemma StartDraining(o: Options, log: Log, fallen: set<string>, out: map<string, Result>, queue: seq<Group>, t: Task)
    requires AtRest(log) && Holding(queue, out.Keys, t.domainOf) && t.permitted == Elems(Flatten(queue))
    requires forall a :: a in out ==> out[a] == SuppressedResult
    ensures Draining(o, log, fallen, t, Progress(log, out, queue, map[], false, fallen))
  {
    SuppressedBacked(o.words, log, out, out.Keys);
    QueueSize(queue, out.Keys, t.domainOf);
  }

  /** Round after round until the queue is empty: the total of queued addresses falls each time. */
  method Drain(o: Options, want: int, ghost log: Log, ghost fallen: set<string>, t: Task, start: Progress)
    returns (p: Progress)
    requires Draining(o, log, fallen, t, start)
    ensures AtRest(p.log) && Prefix(log, p.log) && PairsLabelled(log, p.log, t)
    ensures Thrifty(o, log, p.log, MostMails(o, fallen, t.host)) && fallen <= p.fallen
    ensures p.out.Keys == t.domainOf.Keys && AllBacked(o.words, p.log, p.out) && ToldApart(p.out, t.permitted)
    ensures |Attempts(p.log)| <= |Attempts(log)| + |t.permitted| + 1
    ensures Judged(t.known, p.verdicts, t.domainOf, p.out) && VerdictsWanted(o.words, p.log, t.need, p.verdicts)
  {
    p := start;
    while p.queue != []
      invariant Draining(o, log, fallen, t, p)
      decreases |Flatten(p.queue)|
    {
      p := Round(o, want, log, fallen, t, p);
    }
    assert p.out.Keys == t.domainOf.Keys;
    var out := Judge(o.words, p.log, t.known, p.verdicts, t.need, t.domainOf, p.out);
    p := p.(out := out);
  }

  /** The queue built, the addresses that must not be contacted already answered: nothing at all to do,
      or rounds to go. */
  method Serve(o: Options, want: int, log: Log, fallen: set<string>, start: map<string, Result>, queue: seq<Group>, t: Task)
    returns (resp: Option<map<string, Result>>, p: Progress)
    requires AtRest(log) && Holding(queue, start.Keys, t.domainOf) && t.permitted == Elems(Flatten(queue))
    requires forall a :: a in start ==> start[a] == SuppressedResult
    ensures AtRest(p.log) && Prefix(log, p.log) && PairsLabelled(log, p.log, t)
    ensures Thrifty(o, log, p.log, MostMails(o, fallen, t.host)) && fallen <= p.fallen
    ensures resp.None? ==> t.domainOf.Keys == {} && p.log == log
    ensures resp.Some? ==> t.domainOf.Keys != {} && resp.value.Keys == t.domainOf.Keys
    ensures resp.Some? ==> AllBacked(o.words, p.log, resp.value) && ToldApart(resp.value, t.permitted)
    ensures |Attempts(p.log)| <= |Attempts(log)| + |t.permitted| + 1
    ensures resp.Some? && t.permitted != {} ==> Judged(t.known, p.verdicts, t.domainOf, resp.value)
    ensures VerdictsWanted(o.words, p.log, t.need, p.verdicts)
  {
    resp, p := None, Progress(log, start, queue, map[], false, fallen);
    QueueSize(queue, start.Keys, t.domainOf);
    if queue == [] {
      resp := if start == map[] then None else Some(start);
      SuppressedBacked(o.words, log, start, start.Keys);
      return;
    }
    StartDraining(o, log, fallen, start, queue, t);
    p := Drain(o, want, log, fallen, t, p);
    resp := Some(p.out);
  }

  /** Every RCPT since `log` asked about an address that may be contacted, under the first spelling of the
      domain it is first listed under, or about a bogus one of a domain whose question is wanted. */
  ghost predicate AskedAsListed(norm: string -> string, log: Log, log': Log, ins: seq<DomainGroup>, permitted: set<string>) {
    && (forall p :: p in Pairs(log') && p !in Pairs(log) ==> p.0 in permitted && ListedUnder(norm, ins, p.0, p.1))
    && (forall d :: d in Questions(log') && d !in Questions(log) ==> NeededBy(norm, ins, d))
  }

  lemma AskedAsLabelled(norm: string -> string, log: Log, log': Log, ins: seq<DomainGroup>, t: Task)
    requires PairsLabelled(log, log', t)
    requires forall a :: a in t.domainOf ==> ListedUnder(norm, ins, a, t.domainOf[a])
    requires forall d :: d in t.need && t.need[d] ==> NeededBy(norm, ins, d)
    ensures AskedAsListed(norm, log, log', ins, t.permitted)
  {
  }

  /** The groups merged, the suppressed answered, and the rest queued, for a host. */
  method Prepare(norm: string -> string, host: string, ins: seq<DomainGroup>)
    returns (t: Task, start: map<string, Result>, queue: seq<Group>)
    ensures t.host == host && Holding(queue, start.Keys, t.domainOf) && t.permitted == Elems(Flatten(queue))
    ensures forall a :: a in start ==> start[a] == SuppressedResult
    ensures t.domainOf.Keys == Listed(ins) && t.permitted <= Listed(ins)
    ensures forall a :: a in t.domainOf ==> ListedUnder(norm, ins, a, t.domainOf[a])
    ensures forall d :: d in t.need && t.need[d] ==> NeededBy(norm, ins, d)
  {
    ghost var home;
    var groups;
    groups, home := MergeGroups(norm, ins);
    var labels, need;
    start, labels, need, queue := BuildQueue(groups, home);
    var known: bool := *;
    t := Task(host, labels, need, Elems(Flatten(queue)), known);
    LabelsMean(norm, ins, groups, home, labels);
    NeedsMean(norm, ins, groups, need);
    QueueSize(queue, start.Keys, labels);
  }

  /** Several domains answered by one MX.

      The request terminates and answers every listed address exactly once, suppressed ones included
      (it fails only when it lists none); no verdict is without its reply; each RCPT is sent under the first
      spelling of the domain its address is first listed under, and none for an address that is
      suppressed; and with `permitted` the addresses that may be contacted, at most |permitted| + 1 RCPTs
      for real addresses are sent over all sessions, regrouping and the plaintext rerun. Every verdict is
      of a domain whose question was wanted, and a randomiser condemns every domain of the request. */
  method ProbeDomains(o: Options, want: int, host: string, ins: seq<DomainGroup>, fallen: set<string>, log: Log)
    returns (resp: Option<map<string, Result>>, log': Log, fallen': set<string>, permitted: set<string>, known: bool,
             verdicts: map<string, Verdict>, ghost domainOf: map<string, string>)
    requires AtRest(log)
    ensures AtRest(log') && Prefix(log, log') && AskedAsListed(Normal, log, log', ins, permitted)
    ensures Thrifty(o, log, log', MostMails(o, fallen, host)) && fallen <= fallen'
    ensures resp.None? ==> Listed(ins) == {} && log' == log
    ensures resp.Some? ==> Listed(ins) != {} && resp.value.Keys == Listed(ins) && AllBacked(o.words, log', resp.value)
    ensures domainOf.Keys == Listed(ins) && forall a :: a in Listed(ins) ==> ListedUnder(Normal, ins, a, domainOf[a])
    ensures permitted <= Listed(ins) && (resp.Some? ==> ToldApart(resp.value, permitted))
    ensures |Attempts(log')| <= |Attempts(log)| + |permitted| + 1
    ensures resp.Some? && permitted != {} ==> Judged(known, verdicts, domainOf, resp.value)
    ensures forall d :: d in verdicts ==> Heard(o.words, log', d, verdicts[d]) && NeededBy(Normal, ins, d)
  {
    var t, start, queue := Prepare(Normal, host, ins);
    domainOf, permitted, known := t.domainOf, t.permitted, t.known;
    var p;
    resp, p := Serve(o, want, log, fallen, start, queue, t);
    log', fallen', verdicts := p.log, p.fallen, p.verdicts;
    AskedAsLabelled(Normal, log, log', ins, t);
  }

  // ---------------------------------------------------------------- the request

  /** One batch scoped to one recipient MX. `groups`, when given, replaces the single domain. */
  datatype Query = Query(mxHost: string, domain: string, emails: seq<string>, needCatchAll: bool,
                         groups: seq<DomainGroup>, policyStop: int)

  /** The results, the receiving system the MX belongs to, and whether it may be asked about several domains
      in one session, read after the work. */
  datatype Response = Response(results: map<string, Result>, paceKey: string, multiDomain: bool)

  /** The addresses a query names. */
  ghost function Asked(q: Query): set<string> {
    if q.groups != [] then Listed(q.groups) else Elems(q.emails)
  }

  /** The address may be asked about under the domain. */
  ghost predicate MayAsk(q: Query, a: string, d: string) {
    if q.groups != [] then ListedUnder(Normal, q.groups, a, d) else a in q.emails && d == q.domain
  }

  /** The catch-all question of the domain may be asked: it is wanted, and there is a domain. */
  ghost predicate MayQuestion(q: Query, d: string) {
    d != "" &&
    if q.groups != [] then NeededBy(Normal, q.groups, d) else q.needCatchAll && d == q.domain
  }

  /** Since `log` only what the query names was asked about, each address under its own domain. */
  ghost predicate AsksOnly(q: Query, log: Log, log': Log) {
    && (forall p :: p in Pairs(log') && p !in Pairs(log) ==> MayAsk(q, p.0, p.1))
    && (forall d :: d in Questions(log') && d !in Questions(log) ==> MayQuestion(q, d))
  }

  /** No RCPT since `log` named an address that was told it is suppressed. */
  ghost predicate SparesSuppressed(log: Log, log': Log, out: map<string, Result>) {
    forall p :: p in Pairs(log') && p !in Pairs(log) ==> p.0 in out && out[p.0].kind != Suppressed
  }

  /** The addresses that were not told they are suppressed. */
  function Contacted(out: map<string, Result>): set<string> {
    set a | a in out && out[a].kind != Suppressed
  }

  /** The most RCPTs for real addresses a query may take: one for each address that may be contacted, as
      often as it is listed, and one more where domains are grouped. */
  function MostRcpts(q: Query, out: map<string, Result>): nat {
    if q.groups != [] then |Contacted(out)| + 1 else Count(q.emails, Contacted(out))
  }

  /** The most MAIL FROMs one connection of a query may see. */
  function MostMailsFor(o: Options, fallen: set<string>, q: Query): (n: nat)
    ensures n >= 1
  {
    if q.groups != [] then MostMails(o, fallen, q.mxHost) else 1
  }

  lemma ContactedIs(out: map<string, Result>, permitted: set<string>)
    requires ToldApart(out, permitted) && permitted <= out.Keys
    ensures Contacted(out) == permitted
  {
  }

  lemma AsksAsListed(q: Query, log: Log, log': Log, permitted: set<string>)
    requires q.groups != [] && AskedAsListed(Normal, log, log', q.groups, permitted) && AtRest(log')
    ensures AsksOnly(q, log, log')
  {
    QuestionsNamed(log');
  }

  lemma AsksUnder(q: Query, log: Log, log': Log, who: set<string>)
    requires q.groups == [] && AskedUnder(log, log', who, q.domain, q.needCatchAll) && who <= Elems(q.emails) && AtRest(log')
    ensures AsksOnly(q, log, log')
  {
    QuestionsNamed(log');
  }

  lemma SparesUnlisted(norm: string -> string, log: Log, log': Log, ins: seq<DomainGroup>, out: map<string, Result>, permitted: set<string>)
    requires AskedAsListed(norm, log, log', ins, permitted) && ToldApart(out, permitted) && permitted <= out.Keys
    ensures SparesSuppressed(log, log', out)
  {
  }

  /** A multi-domain query. */
  method ProbeGroups(o: Options, q: Query, fallen: set<string>, log: Log)
    returns (out: Option<map<string, Result>>, log': Log, fallen': set<string>)
    requires AtRest(log) && q.groups != []
    ensures AtRest(log') && Prefix(log, log') && AsksOnly(q, log, log')
    ensures Thrifty(o, log, log', MostMailsFor(o, fallen, q)) && fallen <= fallen'
    ensures out.None? ==> Asked(q) == {} && log' == log
    ensures out.Some? ==> Asked(q) != {} && out.value.Keys == Asked(q) && AllBacked(o.words, log', out.value)
    ensures out.Some? ==> SparesSuppressed(log, log', out.value)
    ensures out.Some? ==> |Attempts(log')| <= |Attempts(log)| + MostRcpts(q, out.value)
  {
    var permitted, known, verdicts;
    ghost var domainOf;
    out, log', fallen', permitted, known, verdicts, domainOf := ProbeDomains(o, q.policyStop, q.mxHost, q.groups, fallen, log);
    AsksAsListed(q, log, log', permitted);
    if out.Some? {
      SparesUnlisted(Normal, log, log', q.groups, out.value, permitted);
      ContactedIs(out.value, permitted);
    }
  }

  lemma {:induction false} CountSame(emails: seq<string>, a: set<string>, b: set<string>)
    requires forall e :: e in emails && e in a ==> e in b
    ensures Count(emails, a) <= Count(emails, b)
  {
    if emails == [] {
    } else {
      CountSame(emails[..|emails| - 1], a, b);
    }
  }

  lemma CountWithin(emails: seq<string>, allowed: seq<string>, out: map<string, Result>)
    requires out.Keys == Elems(emails) && ToldApart(out, Elems(allowed))
    ensures Count(emails, Elems(allowed)) <= Count(emails, Contacted(out))
  {
    CountSame(emails, Elems(allowed), Contacted(out));
  }

  /** A query about one domain. */
  method ProbeOne(o: Options, q: Query, log: Log) returns (out: map<string, Result>, log': Log)
    requires AtRest(log) && q.groups == [] && q.emails != []
    ensures AtRest(log') && Prefix(log, log') && AsksOnly(q, log, log') && Thrifty(o, log, log', 1)
    ensures out.Keys == Asked(q) && Asked(q) != {} && AllBacked(o.words, log', out) && SparesSuppressed(log, log', out)
    ensures |Attempts(log')| <= |Attempts(log)| + MostRcpts(q, out)
  {
    var allowed, known, verdict;
    out, log', allowed, known, verdict := ProbeDomain(o, q.policyStop, q.domain, q.emails, q.needCatchAll, log);
    assert q.emails[0] in Elems(q.emails);
    AsksUnder(q, log, log', Elems(allowed));
    CountWithin(q.emails, allowed, out);
  }

  /** Asks one MX about every address of the query: an error when there is no host or no address, and
      otherwise a result for exactly the addresses named, each verdict with the reply behind it. Only
      what the query names is asked about, each address under its own domain, none that is suppressed,
      within the bound on RCPTs and on MAIL FROMs per connection. */
  method Probe(o: Options, q: Query, fallen: set<string>, log: Log)
    returns (resp: Option<Response>, log': Log, fallen': set<string>)
    requires AtRest(log)
    ensures AtRest(log') && Prefix(log, log') && AsksOnly(q, log, log')
    ensures Thrifty(o, log, log', MostMailsFor(o, fallen, q)) && fallen <= fallen'
    ensures resp.None? <==> q.mxHost == "" || Asked(q) == {}
    ensures resp.None? ==> log' == log
    ensures resp.Some? ==> resp.value.results.Keys == Asked(q) && AllBacked(o.words, log', resp.value.results)
    ensures resp.Some? ==> SparesSuppressed(log, log', resp.value.results)
    ensures resp.Some? ==> |Attempts(log')| <= |Attempts(log)| + MostRcpts(q, resp.value.results)
    ensures resp.Some? ==> (resp.value.paceKey, resp.value.multiDomain) == Grouping(o, fallen', q.mxHost)
  {
    resp, log', fallen' := None, log, fallen;
    if q.mxHost == "" {
      return;
    }
    var out: map<string, Result>;
    if q.groups != [] {
      var answer;
      answer, log', fallen' := ProbeGroups(o, q, fallen, log);
      if answer.None? {
        return;
      }
      out := answer.value;
    } else {
      if q.emails == [] {
        return;
      }
      out, log' := ProbeOne(o, q, log);
    }
    var others: set<string> := *;
    fallen' := fallen' + others;
    var (key, may) := Grouping(o, fallen', q.mxHost);
    resp := Some(Response(out, key, may));
  }
}
