/** The multi-domain requests the API lets through, and which of them keep to one recipient domain per
    transaction. */
module Admission {
  import opened Wrappers
  import opened Hosts
  import opened Dialogue
  import opened SessionSpec
  import opened RequestSpec
  import opened Merging
  import opened Request
  import opened Server
  import opened Composition

  /** The text before the first "@". */
  function LocalPart(e: string): string {
    if e == [] || e[0] == '@' then [] else [e[0]] + LocalPart(e[1..])
  }

  lemma {:induction false} LocalPartMeans(e: string)
    ensures LocalPart(e) <= e && '@' !in LocalPart(e)
    ensures '@' in e ==> |LocalPart(e)| < |e| && e[|LocalPart(e)|] == '@'
  {
    if e == [] || e[0] == '@' {
    } else {
      LocalPartMeans(e[1..]);
      assert e == [e[0]] + e[1..];
    }
  }

  /** The text after the first "@". */
  function HostPart(e: string): string {
    if |LocalPart(e)| < |e| then e[|LocalPart(e)| + 1..] else []
  }

  /** The domain an address is at, as domains are compared. */
  function HostKey(e: string): string {
    Lower(TrimDot(HostPart(e)))
  }

  /** The address is at the domain, but for case, a closing dot of either, and white space around the
      domain. */
  predicate IsAt(e: string, domain: string) {
    '@' in e && HostKey(e) == Normal(domain)
  }

  /** A domain with addresses, all of them at it. */
  predicate Admits(g: DomainGroup) {
    && TrimDot(TrimSpace(g.domain)) != "" && g.emails != []
    && forall i :: 0 <= i < |g.emails| ==> IsAt(g.emails[i], g.domain)
  }

  function Total(ins: seq<DomainGroup>): nat {
    if ins == [] then 0 else Total(ins[..|ins| - 1]) + |ins[|ins| - 1].emails|
  }

  method AdmitEmails(emails: seq<string>, isAt: string -> bool) returns (ok: bool)
    ensures ok <==> forall i :: 0 <= i < |emails| ==> isAt(emails[i])
  {
    for i := 0 to |emails|
      invariant forall j :: 0 <= j < i ==> isAt(emails[j])
    {
      if !isAt(emails[i]) {
        return false;
      }
    }
    return true;
  }

  method AdmitGroup(g: DomainGroup) returns (ok: bool)
    ensures ok <==> Admits(g)
  {
    if TrimDot(TrimSpace(g.domain)) == "" || |g.emails| == 0 {
      return false;
    }
    ok := AdmitEmails(g.emails, e => IsAt(e, g.domain));
  }

  /** What the API demands of the groups of a request, `admits` being what it demands of each. */
  method AdmitDomains(ins: seq<DomainGroup>, maxEmails: int, admits: DomainGroup -> bool) returns (ok: bool)
    ensures ok <==> ins != [] && (forall i :: 0 <= i < |ins| ==> admits(ins[i])) && Total(ins) <= maxEmails
  {
    if |ins| == 0 {
      return false;
    }
    var total := 0;
    for i := 0 to |ins|
      invariant total == Total(ins[..i])
      invariant forall j :: 0 <= j < i ==> admits(ins[j])
    {
      if !admits(ins[i]) {
        return false;
      }
      assert ins[..i + 1][..i] == ins[..i];
      total := total + |ins[i].emails|;
    }
    assert ins[..|ins|] == ins;
    return total <= maxEmails;
  }

  // ---------------------------------------------------------------- where such addresses are filed

  lemma {:induction false} TrimRightAt(x: string)
    ensures TrimRight("@" + x) == "@" + TrimRight(x)
  {
    if x == [] || !IsSpace(x[|x| - 1]) {
    } else {
      assert ("@" + x)[..|x|] == "@" + x[..|x| - 1];
      TrimRightAt(x[..|x| - 1]);
    }
  }

  /** Neither ">" nor "@" in it. */
  predicate Bare(x: string) {
    '>' !in x && '@' !in x
  }

  lemma BareParse(x: string)
    requires Bare(x)
    ensures ParseAddr("@" + x) == "@" + TrimRight(x)
  {
    UpToAnglePlain("@" + x);
    TrimRightAt(x);
  }

  lemma BareDomain(x: string)
    requires Bare(x)
    ensures DomainOf("@" + x) == TrimDot(Lower(x))
  {
    LowerConcat("@", x);
    assert Lower("@") == "@";
    AfterAtAll(Lower(x));
  }

  /** An address is filed under what follows its "@", without white space at the end, lower case and without
      a closing dot. */
  lemma FiledAt(x: string)
    requires Bare(x)
    ensures ServerDomain("@" + x) == TrimDot(Lower(TrimRight(x)))
  {
    BareParse(x);
    BareDomain(TrimRight(x));
  }

  lemma {:induction false} TrimLeftBefore(local: string, u: string)
    requires u != [] && !IsSpace(u[0])
    ensures TrimLeft(local + u) == TrimLeft(local) + u
  {
    if local == [] {
      assert local + u == u;
    } else if IsSpace(local[0]) {
      assert (local + u)[1..] == local[1..] + u;
      TrimLeftBefore(local[1..], u);
    }
  }

  lemma AnyLocalParse(local: string, m: string)
    requires '>' !in local && m != [] && m[0] == '@'
    ensures ParseAddr(m) != [] && ParseAddr(m)[0] == '@' && ParseAddr(local + m) == TrimLeft(local) + ParseAddr(m)
  {
    UpToAngleConcat(local, m);
    var u := UpToAngle(m);
    assert u[0] == '@';
    TrimLeftBefore(local, u);
    TrimRightConcat(TrimLeft(local), u);
    TrimRightKeeps(u);
  }

  /** Whatever precedes the "@", white space included. */
  lemma AnyLocal(local: string, m: string)
    requires '>' !in local && m != [] && m[0] == '@'
    ensures ServerDomain(local + m) == ServerDomain(m)
  {
    AnyLocalParse(local, m);
    DomainConcat(TrimLeft(local), ParseAddr(m));
  }

  /** The name ends neither in white space nor in a dot. */
  predicate Ends(c: string) {
    c != [] && !IsSpace(c[|c| - 1]) && c[|c| - 1] != '.'
  }

  lemma LowerTrimDot(s: string)
    ensures Lower(TrimDot(s)) == TrimDot(Lower(s))
  {
    var low := Lower(s);
    if |s| > 0 && s[|s| - 1] == '.' {
      assert s == s[..|s| - 1] + ".";
      LowerConcat(s[..|s| - 1], ".");
      assert Lower(".") == ".";
    }
  }

  /** Two spellings that differ in case only. */
  lemma SameShape(a: string, b: string)
    requires Lower(a) == Lower(b) && Bare(b) && Ends(b)
    ensures Bare(a) && Ends(a)
  {
    assert |a| == |b| && forall i :: 0 <= i < |a| ==> LowerChar(a[i]) == LowerChar(b[i]);
    SpaceInAnyCase(a[|a| - 1]);
    SpaceInAnyCase(b[|b| - 1]);
    forall i | 0 <= i < |a| ensures a[i] != '>' && a[i] != '@' {
      assert b[i] in b;
    }
  }

  /** Text that is a plain name, perhaps with a closing dot, is filed as the name. */
  lemma FiledName(x: string)
    requires Bare(TrimDot(x)) && Ends(TrimDot(x))
    ensures ServerDomain("@" + x) == Lower(TrimDot(x))
  {
    assert Bare(x) by { assert x == TrimDot(x) || x == TrimDot(x) + "."; }
    FiledAt(x);
    assert TrimRight(x) == x;
    LowerTrimDot(x);
  }

  /** The domain, without white space and a dot around it, is a plain name. */
  predicate NamesHost(d: string) {
    Bare(TrimDot(TrimSpace(d))) && Ends(TrimDot(TrimSpace(d)))
  }

  lemma AtSplit(e: string, local: string)
    requires local <= e && |local| < |e| && e[|local|] == '@'
    ensures e == local + ("@" + e[|local| + 1..])
  {
  }

  lemma InParts(e: string)
    requires '@' in e
    ensures e == LocalPart(e) + ("@" + HostPart(e))
  {
    LocalPartMeans(e);
    AtSplit(e, LocalPart(e));
  }

  lemma FiledByHost(e: string)
    requires '@' in e && '>' !in LocalPart(e)
    ensures ServerDomain(e) == ServerDomain("@" + HostPart(e))
  {
    InParts(e);
    AnyLocal(LocalPart(e), "@" + HostPart(e));
  }

  /** An address at a domain is filed as the domain is compared. */
  lemma FiledAsCompared(e: string, d: string)
    requires IsAt(e, d) && '>' !in LocalPart(e) && NamesHost(d)
    ensures ServerDomain(e) == Normal(d)
  {
    FiledByHost(e);
    SameShape(TrimDot(HostPart(e)), TrimDot(TrimSpace(d)));
    FiledName(HostPart(e));
  }

  // ---------------------------------------------------------------- where bogus addresses are filed

  /** The white space before the domain. */
  function Lead(d: string): string {
    if d == [] || !IsSpace(d[0]) then [] else [d[0]] + Lead(d[1..])
  }

  lemma {:induction false} LeadIsSpace(d: string)
    ensures forall i :: 0 <= i < |Lead(d)| ==> IsSpace(Lead(d)[i])
  {
    if d == [] || !IsSpace(d[0]) {
    } else {
      LeadIsSpace(d[1..]);
    }
  }

  lemma Rejoin(d: string, rest: string, lead: string, trimmed: string)
    requires d != "" && rest == d[1..] && rest == lead + trimmed
    ensures d == [d[0]] + lead + trimmed
  {
  }

  lemma {:induction false} LeadThenRest(d: string)
    ensures d == Lead(d) + TrimLeft(d)
  {
    if d == [] || !IsSpace(d[0]) {
      assert Lead(d) == [] && TrimLeft(d) == d;
    } else {
      var rest := d[1..];
      LeadThenRest(rest);
      Rejoin(d, rest, Lead(rest), TrimLeft(rest));
    }
  }

  lemma LowerSpace(s: string)
    requires forall i :: 0 <= i < |s| ==> IsSpace(s[i])
    ensures Lower(s) == s && Bare(s)
  {
  }

  /** The domain without the white space after it. */
  lemma LeadKept(d: string)
    requires TrimSpace(d) != ""
    ensures TrimRight(d) == Lead(d) + TrimSpace(d)
  {
    LeadThenRest(d);
    TrimRightConcat(Lead(d), TrimLeft(d));
  }

  lemma DotAfter(a: string, b: string)
    requires b != ""
    ensures TrimDot(a + b) == a + TrimDot(b)
  {
    if b[|b| - 1] == '.' {
      assert (a + b)[..|a + b| - 1] == a + b[..|b| - 1];
    }
  }

  lemma {:induction false} TrimRightBare(d: string)
    requires Bare(TrimRight(d))
    ensures Bare(d)
  {
    if d == [] || !IsSpace(d[|d| - 1]) {
    } else {
      TrimRightBare(d[..|d| - 1]);
      assert d == d[..|d| - 1] + [d[|d| - 1]];
    }
  }

  lemma DotBare(core: string)
    requires Bare(TrimDot(core))
    ensures Bare(core)
  {
    assert core == TrimDot(core) || core == TrimDot(core) + ".";
  }

  lemma HostIsBare(d: string)
    requires NamesHost(d)
    ensures TrimSpace(d) != "" && Bare(d) && TrimRight(d) == Lead(d) + TrimSpace(d)
  {
    LeadIsSpace(d);
    LowerSpace(Lead(d));
    DotBare(TrimSpace(d));
    LeadKept(d);
    assert Bare(Lead(d) + TrimSpace(d));
    TrimRightBare(d);
  }

  lemma NothingToTrim(x: string)
    requires Ends(x)
    ensures TrimRight(x) == x && TrimDot(x) == x
  {
  }

  lemma EndsAfter(a: string, b: string)
    requires Ends(b)
    ensures Ends(a + b)
  {
    assert (a + b)[|a + b| - 1] == b[|b| - 1];
  }

  lemma DottedText(d: string, lead: string, core: string)
    requires d != "" && d[|d| - 1] == '.' && TrimRight(d) == lead + core && core != "" && Ends(TrimDot(core))
    ensures TrimDot(TrimRight(TrimDot(d))) == lead + TrimDot(core)
  {
    assert TrimRight(d) == d;
    DotAfter(lead, core);
    EndsAfter(lead, TrimDot(core));
    NothingToTrim(TrimDot(d));
  }

  /** What a bogus address of the domain carries after its "@", once white space after it is gone and a
      closing dot does not count: the white space before the domain, and the domain. */
  lemma BogusText(d: string)
    requires NamesHost(d)
    ensures Bare(TrimDot(d)) && TrimDot(TrimRight(TrimDot(d))) == Lead(d) + TrimDot(TrimSpace(d))
  {
    HostIsBare(d);
    DotAfter(Lead(d), TrimSpace(d));
    if d[|d| - 1] == '.' {
      DottedText(d, Lead(d), TrimSpace(d));
    } else {
      assert TrimDot(d) == d;
    }
  }

  /** Bogus addresses are filed under the domain with the white space before it. */
  lemma BogusFiled(d: string)
    requires NamesHost(d)
    ensures ServerDomain(AtDomain(d)) == Lead(d) + Normal(d)
  {
    BogusText(d);
    FiledAt(TrimDot(d));
    LowerTrimDot(TrimRight(TrimDot(d)));
    LeadIsSpace(d);
    LowerSpace(Lead(d));
    LowerConcat(Lead(d), TrimDot(TrimSpace(d)));
  }

  // ---------------------------------------------------------------- which admitted requests cohere

  /** The group is let through, names a host, and has addresses without a ">" before their "@". */
  ghost predicate Passes(g: DomainGroup) {
    Admits(g) && NamesHost(g.domain) && forall e :: e in g.emails ==> '>' !in LocalPart(e)
  }

  ghost predicate Admitted(q: Query) {
    q.groups != [] && forall g :: g in q.groups ==> Passes(g)
  }

  lemma {:induction false} NewOnesHas(emails: seq<string>, seen: set<string>, a: string)
    requires a in emails && a !in seen
    ensures a in NewOnes(emails, seen)
  {
    var before := emails[..|emails| - 1];
    if a in before {
      NewOnesHas(before, seen, a);
    } else {
      assert emails == before + [emails[|emails| - 1]];
    }
  }

  /** Every listed address comes from a group. */
  lemma {:induction false} ListedIn(ins: seq<DomainGroup>, a: string)
    requires a in Listed(ins)
    ensures exists g :: g in ins && a in g.emails
  {
    var g := ins[|ins| - 1];
    if a in g.emails {
      assert g in ins;
    } else {
      ListedIn(ins[..|ins| - 1], a);
    }
  }

  lemma {:induction false} MentionedIn(norm: string -> string, ins: seq<DomainGroup>, g: DomainGroup)
    requires g in ins
    ensures Mentioned(norm, ins, norm(g.domain))
  {
    if g == ins[|ins| - 1] {
    } else {
      MentionedIn(norm, ins[..|ins| - 1], g);
    }
  }

  /** Where each address is at one domain only, every first spelling has an address listed under it. */
  lemma {:induction false} HeadHasAddress(norm: string -> string, at: string -> string, ins: seq<DomainGroup>, d: string)
    returns (a: string)
    requires forall g :: g in ins ==> g.emails != [] && forall e :: e in g.emails ==> at(e) == norm(g.domain)
    requires d in Heads(norm, ins)
    ensures ListedUnder(norm, ins, a, d)
  {
    var before, g := ins[..|ins| - 1], ins[|ins| - 1];
    if d in Heads(norm, before) {
      a := HeadHasAddress(norm, at, before, d);
    } else {
      a := g.emails[0];
      if a in Listed(before) {
        ListedIn(before, a);
        var h :| h in before && a in h.emails;
        assert h in ins && g in ins;
        MentionedIn(norm, before, h);
      }
      NewOnesHas(g.emails, Listed(before), a);
    }
  }

  lemma AdmittedFiled(q: Query, a: string, d: string)
    requires Admitted(q) && MayAsk(q, a, d)
    ensures ServerDomain(a) == Normal(d)
  {
    FirstsAreListed(Normal, q.groups, a, Normal(d));
    var g :| g in q.groups && Normal(g.domain) == Normal(d) && a in g.emails;
    FiledAsCompared(a, g.domain);
  }

  lemma AdmittedBogus(q: Query, d: string)
    requires Admitted(q) && MayQuestion(q, d)
    ensures ServerDomain(AtDomain(d)) == Lead(d) + Normal(d)
  {
    HeadIsListed(Normal, q.groups, d);
    var g :| g in q.groups && g.domain == d;
    BogusFiled(d);
  }

  lemma AdmitsMeans(g: DomainGroup)
    requires Admits(g)
    ensures g.emails != [] && forall e :: e in g.emails ==> HostKey(e) == Normal(g.domain)
  {
    forall e | e in g.emails ensures HostKey(e) == Normal(g.domain) {
      var i :| 0 <= i < |g.emails| && g.emails[i] == e;
      assert IsAt(g.emails[i], g.domain);
    }
  }

  lemma AdmittedHasAddress(q: Query, d: string) returns (a: string)
    requires Admitted(q) && MayQuestion(q, d)
    ensures MayAsk(q, a, d)
  {
    forall g | g in q.groups ensures g.emails != [] && forall e :: e in g.emails ==> HostKey(e) == Normal(g.domain) {
      AdmitsMeans(g);
    }
    a := HeadHasAddress(Normal, HostKey, q.groups, d);
  }

  lemma Misfiled(o: Options, rd: Reading, q: Query, a: string, d: string)
    requires MayAsk(q, a, d) && MayQuestion(q, d) && rd.domain(a) != rd.domain(AtDomain(d))
    ensures !Coherent(o, rd, q)
  {
  }

  /** Where real addresses are filed as their domain is compared, and bogus ones with something before it. */
  lemma LedElsewhere(o: Options, rd: Reading, norm: string -> string, lead: string -> string, q: Query)
    requires forall a, d :: MayAsk(q, a, d) ==> rd.domain(a) == norm(d)
    requires forall d :: MayQuestion(q, d) ==> rd.domain(AtDomain(d)) == lead(d) + norm(d) && exists a :: MayAsk(q, a, d)
    ensures Coherent(o, rd, q) <==> forall d :: MayQuestion(q, d) ==> lead(d) == ""
  {
    if d :| MayQuestion(q, d) && lead(d) != "" {
      var a :| MayAsk(q, a, d);
      assert |lead(d) + norm(d)| > |norm(d)|;
      Misfiled(o, rd, q, a, d);
    } else {
      forall d, a | MayAsk(q, a, d) && MayQuestion(q, d) ensures rd.domain(a) == rd.domain(AtDomain(d)) {
        assert "" + norm(d) == norm(d);
      }
    }
  }

  /** Of the requests the API lets through, those keep every transaction to one recipient domain that spell no
      domain whose catch-all question is wanted with white space before it, where it is first spelled. White
      space after it does not matter. */
  lemma AdmittedCoheresExactlyWhen(o: Options, q: Query)
    requires Admitted(q)
    ensures Coherent(o, AsWritten, q) <==> forall d :: MayQuestion(q, d) ==> Lead(d) == ""
  {
    forall a, d | MayAsk(q, a, d) ensures AsWritten.domain(a) == Normal(d) {
      AdmittedFiled(q, a, d);
    }
    forall d | MayQuestion(q, d) ensures AsWritten.domain(AtDomain(d)) == Lead(d) + Normal(d) && exists a :: MayAsk(q, a, d) {
      AdmittedBogus(q, d);
      var a := AdmittedHasAddress(q, d);
    }
    LedElsewhere(o, AsWritten, Normal, Lead, q);
  }

  /** A domain with a space before it and one address at it. */
  function Spaced(d: string): DomainGroup {
    DomainGroup(" " + d, ["x@" + d], true)
  }

  lemma SpacedLead(d: string)
    requires d != "" && !IsSpace(d[0])
    ensures TrimLeft(" " + d) == d && Lead(" " + d) == " "
  {
    var s := " " + d;
    assert s[1..] == d && Lead(d) == [] && TrimLeft(d) == d;
  }

  lemma SpacedName(d: string)
    requires Bare(d) && Ends(d) && !IsSpace(d[0])
    ensures TrimSpace(" " + d) == d && TrimSpace(d) == d && TrimDot(d) == d && Lead(" " + d) == " "
  {
    NothingToTrim(d);
    assert TrimLeft(d) == d;
    SpacedLead(d);
  }

  lemma SpacedAt(d: string)
    ensures LocalPart("x@" + d) == "x" && HostPart("x@" + d) == d
  {
    var e := "x@" + d;
    assert e[1..] == "@" + d && LocalPart(e[1..]) == [];
    assert e[2..] == d;
  }

  lemma SpacedIsAt(d: string)
    requires Bare(d) && Ends(d) && !IsSpace(d[0])
    ensures IsAt("x@" + d, " " + d)
  {
    SpacedAt(d);
    SpacedName(d);
    assert ("x@" + d)[1] == '@';
  }

  lemma SpacedAdmits(d: string)
    requires Bare(d) && Ends(d) && !IsSpace(d[0])
    ensures Admits(Spaced(d)) && NamesHost(" " + d)
  {
    SpacedName(d);
    SpacedIsAt(d);
  }

  lemma SpacedListed(norm: string -> string, g: DomainGroup)
    requires g.needCatchAll
    ensures NeededBy(norm, [g], g.domain)
  {
    assert [g][..0] == [];
  }

  lemma PassesWithOne(g: DomainGroup, e: string)
    requires Admits(g) && NamesHost(g.domain) && g.emails == [e] && '>' !in LocalPart(e)
    ensures Passes(g)
  {
  }

  lemma SpacedPasses(d: string)
    requires Bare(d) && Ends(d) && !IsSpace(d[0])
    ensures Passes(Spaced(d))
  {
    SpacedAdmits(d);
    SpacedAt(d);
    PassesWithOne(Spaced(d), "x@" + d);
  }

  lemma OneAdmitted(q: Query, g: DomainGroup)
    requires q.groups == [g] && Passes(g)
    ensures Admitted(q)
  {
  }

  lemma SpacedQuestioned(q: Query, d: string)
    requires q.groups == [Spaced(d)]
    ensures MayQuestion(q, " " + d)
  {
    SpacedListed(Normal, Spaced(d));
  }

  /** Such a request: one group, let through, whose bogus addresses are filed elsewhere than its address. */
  lemma SpaceBreaksCoherence(o: Options, q: Query, d: string)
    requires Bare(d) && Ends(d) && !IsSpace(d[0]) && q.groups == [Spaced(d)]
    ensures Admitted(q) && !Coherent(o, AsWritten, q)
  {
    SpacedPasses(d);
    OneAdmitted(q, Spaced(d));
    SpacedQuestioned(q, d);
    SpacedName(d);
    AdmittedCoheresExactlyWhen(o, q);
  }
}
