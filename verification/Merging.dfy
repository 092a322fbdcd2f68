/** Groups that name one domain folded into one: two callers' batches can meet in one request. */
module Merging {
  import opened Wrappers
  import opened Hosts
  import opened SessionSpec
  import opened RequestSpec

  /** One domain's addresses in a multi-domain request. */
  datatype DomainGroup = DomainGroup(domain: string, emails: seq<string>, needCatchAll: bool)

  // `norm` is the form domains are compared in; everything here holds for any.

  /** The addresses not among those seen, in order, each once. */
  ghost function NewOnes(emails: seq<string>, seen: set<string>): seq<string> {
    if emails == [] then []
    else
      var before, e := emails[..|emails| - 1], emails[|emails| - 1];
      NewOnes(before, seen) + (if e in seen || e in before then [] else [e])
  }

  ghost function Listed(ins: seq<DomainGroup>): set<string> {
    if ins == [] then {} else Listed(ins[..|ins| - 1]) + Elems(ins[|ins| - 1].emails)
  }

  /** The addresses first listed under a domain, in the order they came, and whether any group of the
      domain needs the catch-all question, read off the groups as they came. */
  ghost function Firsts(norm: string -> string, ins: seq<DomainGroup>, d: string): seq<string> {
    if ins == [] then []
    else
      var before, g := ins[..|ins| - 1], ins[|ins| - 1];
      Firsts(norm, before, d) + (if norm(g.domain) == d then NewOnes(g.emails, Listed(before)) else [])
  }

  ghost predicate Needs(norm: string -> string, ins: seq<DomainGroup>, d: string) {
    ins != [] && (Needs(norm, ins[..|ins| - 1], d) || (norm(ins[|ins| - 1].domain) == d && ins[|ins| - 1].needCatchAll))
  }

  /** `home` names the one group that holds each address, and no group holds one twice. */
  ghost predicate Housed(out: seq<DomainGroup>, home: map<string, nat>) {
    && (forall e :: e in home ==> home[e] < |out| && e in out[home[e]].emails)
    && (forall i, e :: 0 <= i < |out| && e in out[i].emails ==> e in home && home[e] == i)
    && (forall i :: 0 <= i < |out| ==> NoDup(out[i].emails))
  }

  /** `at` names the one group of each domain. */
  ghost predicate Indexed(norm: string -> string, out: seq<DomainGroup>, at: map<string, nat>) {
    && (forall i :: 0 <= i < |out| ==> norm(out[i].domain) in at && at[norm(out[i].domain)] == i)
    && (forall d :: d in at ==> at[d] < |out| && norm(out[at[d]].domain) == d)
  }

  ghost predicate Mentioned(norm: string -> string, ins: seq<DomainGroup>, d: string) {
    ins != [] && (Mentioned(norm, ins[..|ins| - 1], d) || norm(ins[|ins| - 1].domain) == d)
  }

  /** The domains, each as it was first spelled, in the order they came. */
  ghost function Heads(norm: string -> string, ins: seq<DomainGroup>): seq<string> {
    if ins == [] then []
    else
      var before, g := ins[..|ins| - 1], ins[|ins| - 1];
      Heads(norm, before) + (if Mentioned(norm, before, norm(g.domain)) then [] else [g.domain])
  }

  /** The address is first listed under a domain whose first spelling is `d`. */
  ghost predicate ListedUnder(norm: string -> string, ins: seq<DomainGroup>, a: string, d: string) {
    d in Heads(norm, ins) && a in Firsts(norm, ins, norm(d))
  }

  /** The catch-all question of a domain whose first spelling is `d` is wanted. */
  ghost predicate NeededBy(norm: string -> string, ins: seq<DomainGroup>, d: string) {
    d in Heads(norm, ins) && Needs(norm, ins, norm(d))
  }

  lemma {:induction false} NewOnesAreNew(emails: seq<string>, seen: set<string>, a: string)
    requires a in NewOnes(emails, seen)
    ensures a in emails && a !in seen
  {
    var before := emails[..|emails| - 1];
    if a in NewOnes(before, seen) {
      NewOnesAreNew(before, seen, a);
    }
  }

  lemma {:induction false} FirstsAreListed(norm: string -> string, ins: seq<DomainGroup>, a: string, d: string)
    requires a in Firsts(norm, ins, d)
    ensures a in Listed(ins) && exists g :: g in ins && norm(g.domain) == d && a in g.emails
  {
    var before, g := ins[..|ins| - 1], ins[|ins| - 1];
    if a in Firsts(norm, before, d) {
      FirstsAreListed(norm, before, a, d);
    } else {
      NewOnesAreNew(g.emails, Listed(before), a);
      assert g in ins;
    }
  }

  /** An address is first listed under one domain only. */
  lemma {:induction false} FirstsOnce(norm: string -> string, ins: seq<DomainGroup>, a: string, d: string, e: string)
    requires a in Firsts(norm, ins, d) && a in Firsts(norm, ins, e)
    ensures d == e
  {
    var before, g := ins[..|ins| - 1], ins[|ins| - 1];
    if a in Firsts(norm, before, d) {
      FirstsAreListed(norm, before, a, d);
    } else {
      NewOnesAreNew(g.emails, Listed(before), a);
    }
    if a in Firsts(norm, before, e) {
      FirstsAreListed(norm, before, a, e);
    } else {
      NewOnesAreNew(g.emails, Listed(before), a);
    }
    if a in Listed(before) {
      FirstsOnce(norm, before, a, d, e);
    }
  }

  lemma {:induction false} HeadIsListed(norm: string -> string, ins: seq<DomainGroup>, h: string)
    requires h in Heads(norm, ins)
    ensures Mentioned(norm, ins, norm(h)) && exists g :: g in ins && g.domain == h
  {
    var before, g := ins[..|ins| - 1], ins[|ins| - 1];
    if h in Heads(norm, before) {
      HeadIsListed(norm, before, h);
    } else {
      assert g in ins;
    }
  }

  /** A domain has one first spelling. */
  lemma {:induction false} HeadsOnce(norm: string -> string, ins: seq<DomainGroup>, h: string, k: string)
    requires h in Heads(norm, ins) && k in Heads(norm, ins) && norm(h) == norm(k)
    ensures h == k
  {
    var before := ins[..|ins| - 1];
    if h in Heads(norm, before) {
      HeadIsListed(norm, before, h);
      if k in Heads(norm, before) {
        HeadsOnce(norm, before, h, k);
      }
    } else if k in Heads(norm, before) {
      HeadIsListed(norm, before, k);
    }
  }

  /** The domain an address is asked under is determined by the request. */
  lemma ListedUnderOne(norm: string -> string, ins: seq<DomainGroup>, a: string, d: string, e: string)
    requires ListedUnder(norm, ins, a, d) && ListedUnder(norm, ins, a, e)
    ensures d == e
  {
    FirstsOnce(norm, ins, a, norm(d), norm(e));
    HeadsOnce(norm, ins, d, e);
  }

  /** The groups are those of the domains named. */
  ghost predicate Spelled(out: seq<DomainGroup>, heads: seq<string>) {
    |out| == |heads| && forall i :: 0 <= i < |out| ==> out[i].domain == heads[i]
  }

  /** Each group holds exactly the addresses first listed under its domain, in order, and asks exactly when
      its domain does. */
  ghost predicate Fed(norm: string -> string, ins: seq<DomainGroup>, out: seq<DomainGroup>) {
    forall i :: 0 <= i < |out| ==>
      && out[i].emails == Firsts(norm, ins, norm(out[i].domain))
      && (out[i].needCatchAll <==> Needs(norm, ins, norm(out[i].domain)))
  }

  ghost predicate DomainsIn(norm: string -> string, ins: seq<DomainGroup>, at: map<string, nat>) {
    forall g :: g in ins ==> norm(g.domain) in at
  }

  ghost predicate Merged(norm: string -> string, ins: seq<DomainGroup>, out: seq<DomainGroup>, at: map<string, nat>, home: map<string, nat>) {
    true == (Housed(out, home) && home.Keys == Listed(ins) && Indexed(norm, out, at) && Fed(norm, ins, out) && DomainsIn(norm, ins, at))
  }

  /** `out` is `groups` with some of `emails` added to group `i`, each at home there if it was new. */
  ghost predicate Added(groups: seq<DomainGroup>, home: map<string, nat>, i: nat, emails: seq<string>,
                        out: seq<DomainGroup>, home': map<string, nat>)
    requires i < |groups|
  {
    true == (
      && Housed(out, home') && home'.Keys == home.Keys + Elems(emails)
      && |out| == |groups| && (forall j :: 0 <= j < |out| && j != i ==> out[j] == groups[j])
      && out[i].domain == groups[i].domain && out[i].needCatchAll == groups[i].needCatchAll
      && out[i].emails == groups[i].emails + NewOnes(emails, home.Keys))
  }

  lemma HousedMore(out: seq<DomainGroup>, home: map<string, nat>, i: nat, e: string)
    requires Housed(out, home) && i < |out| && e !in home
    ensures Housed(out[i := out[i].(emails := out[i].emails + [e])], home[e := i])
  {
    NoDupJoin(out[i].emails, [e]);
  }

  lemma NewOnesMore(emails: seq<string>, e: string, seen: set<string>)
    ensures NewOnes(emails + [e], seen) == NewOnes(emails, seen) + (if e in seen || e in emails then [] else [e])
  {
    assert (emails + [e])[..|emails|] == emails;
  }

  lemma AddedSeen(groups: seq<DomainGroup>, home: map<string, nat>, i: nat, emails: seq<string>,
                  out: seq<DomainGroup>, home': map<string, nat>, e: string)
    requires i < |groups| && Added(groups, home, i, emails, out, home') && e in home'
    ensures Added(groups, home, i, emails + [e], out, home')
  {
    ElemsConcat(emails, [e]);
    NewOnesMore(emails, e, home.Keys);
    assert home'.Keys == home.Keys + Elems(emails + [e]);
    assert out[i].emails + [] == out[i].emails;
  }

  lemma NewKeys(home: map<string, nat>, home': map<string, nat>, emails: seq<string>, i: nat, e: string)
    requires home'.Keys == home.Keys + Elems(emails) && e !in home'
    ensures home'[e := i].Keys == home.Keys + Elems(emails + [e]) && e !in home && e !in emails
  {
    ElemsConcat(emails, [e]);
    assert Elems([e]) == {e};
    assert e in emails ==> e in Elems(emails);
  }

  lemma AddedNew(groups: seq<DomainGroup>, home: map<string, nat>, i: nat, emails: seq<string>,
                 out: seq<DomainGroup>, home': map<string, nat>, e: string)
    requires i < |groups| && Added(groups, home, i, emails, out, home') && e !in home'
    ensures Added(groups, home, i, emails + [e], out[i := out[i].(emails := out[i].emails + [e])], home'[e := i])
  {
    HousedMore(out, home', i, e);
    NewKeys(home, home', emails, i, e);
    NewOnesMore(emails, e, home.Keys);
    assert out[i].emails + [e] == groups[i].emails + (NewOnes(emails, home.Keys) + [e]);
  }

  lemma AddedNone(groups: seq<DomainGroup>, home: map<string, nat>, i: nat)
    requires i < |groups| && Housed(groups, home)
    ensures Added(groups, home, i, [], groups, home)
  {
    assert Elems([]) == {};
  }

  method AddNext(ghost groups: seq<DomainGroup>, ghost home: map<string, nat>, i: nat, emails: seq<string>, k: nat,
                 ghost done: seq<string>, out: seq<DomainGroup>, seen: set<string>, ghost home0: map<string, nat>)
    returns (out': seq<DomainGroup>, seen': set<string>, ghost home': map<string, nat>, ghost done': seq<string>)
    requires i < |groups| == |out| && k < |emails| && done == emails[..k]
    requires Added(groups, home, i, done, out, home0) && seen == home0.Keys
    ensures done' == emails[..k + 1] && |out'| == |groups|
    ensures Added(groups, home, i, done', out', home') && seen' == home'.Keys
  {
    var e := emails[k];
    done' := done + [e];
    assert done' == emails[..k + 1];
    out', seen', home' := out, seen, home0;
    if e !in seen {
      AddedNew(groups, home, i, done, out, home0, e);
      out' := out[i := out[i].(emails := out[i].emails + [e])];
      seen', home' := seen + {e}, home0[e := i];
    } else {
      AddedSeen(groups, home, i, done, out, home0, e);
    }
  }

  lemma AllAdded(groups: seq<DomainGroup>, home: map<string, nat>, i: nat, emails: seq<string>, done: seq<string>,
                 out: seq<DomainGroup>, home': map<string, nat>)
    requires i < |groups| && done == emails[..|emails|] && Added(groups, home, i, done, out, home')
    ensures Added(groups, home, i, emails, out, home')
  {
    assert done == emails;
  }

  /** Adds the addresses not seen yet to group `i`. */
  method AddEmails(groups: seq<DomainGroup>, i: nat, emails: seq<string>, seen: set<string>, ghost home: map<string, nat>)
    returns (out: seq<DomainGroup>, seen': set<string>, ghost home': map<string, nat>)
    requires i < |groups| && Housed(groups, home) && seen == home.Keys
    ensures Added(groups, home, i, emails, out, home') && seen' == home'.Keys
  {
    out, seen', home' := groups, seen, home;
    AddedNone(groups, home, i);
    ghost var done: seq<string> := [];
    for k := 0 to |emails|
      invariant done == emails[..k] && |out| == |groups|
      invariant Added(groups, home, i, done, out, home') && seen' == home'.Keys
    {
      out, seen', home', done := AddNext(groups, home, i, emails, k, done, out, seen', home');
    }
    AllAdded(groups, home, i, emails, done, out, home');
  }

  lemma HousedNew(out: seq<DomainGroup>, home: map<string, nat>, d: string)
    requires Housed(out, home)
    ensures Housed(out + [DomainGroup(d, [], false)], home)
  {
    var out' := out + [DomainGroup(d, [], false)];
    assert forall i :: 0 <= i < |out| ==> out'[i] == out[i];
  }

  lemma IndexedNew(norm: string -> string, out: seq<DomainGroup>, at: map<string, nat>, d: string)
    requires Indexed(norm, out, at) && norm(d) !in at
    ensures Indexed(norm, out + [DomainGroup(d, [], false)], at[norm(d) := |out|])
  {
    var out' := out + [DomainGroup(d, [], false)];
    assert forall i :: 0 <= i < |out| ==> out'[i] == out[i];
  }

  lemma {:induction false} NotNeeded(norm: string -> string, ins: seq<DomainGroup>, at: map<string, nat>, d: string)
    requires DomainsIn(norm, ins, at) && d !in at
    ensures !Needs(norm, ins, d) && Firsts(norm, ins, d) == [] && !Mentioned(norm, ins, d)
  {
    if ins == [] {
    } else {
      assert ins[|ins| - 1] in ins;
      NotNeeded(norm, ins[..|ins| - 1], at, d);
    }
  }

  lemma FedNew(norm: string -> string, ins: seq<DomainGroup>, out: seq<DomainGroup>, at: map<string, nat>, d: string)
    requires Fed(norm, ins, out) && DomainsIn(norm, ins, at) && norm(d) !in at
    ensures Fed(norm, ins, out + [DomainGroup(d, [], false)])
  {
    NotNeeded(norm, ins, at, norm(d));
    var out' := out + [DomainGroup(d, [], false)];
    assert forall i :: 0 <= i < |out| ==> out'[i] == out[i];
  }

  lemma MergedNew(norm: string -> string, ins: seq<DomainGroup>, out: seq<DomainGroup>, d: string, at: map<string, nat>, home: map<string, nat>)
    requires Merged(norm, ins, out, at, home) && norm(d) !in at
    ensures Merged(norm, ins, out + [DomainGroup(d, [], false)], at[norm(d) := |out|], home)
  {
    HousedNew(out, home, d);
    IndexedNew(norm, out, at, d);
    FedNew(norm, ins, out, at, d);
  }

  lemma FedMore(norm: string -> string, ins: seq<DomainGroup>, g: DomainGroup, i: nat, was: seq<DomainGroup>, out: seq<DomainGroup>, at: map<string, nat>)
    requires Fed(norm, ins, was) && Indexed(norm, was, at) && i < |was| == |out| && norm(g.domain) in at && at[norm(g.domain)] == i
    requires forall j :: 0 <= j < |out| && j != i ==> out[j] == was[j]
    requires out[i].domain == was[i].domain && out[i].needCatchAll == (was[i].needCatchAll || g.needCatchAll)
    requires out[i].emails == was[i].emails + NewOnes(g.emails, Listed(ins))
    ensures Fed(norm, ins + [g], out) && Indexed(norm, out, at)
  {
    var ins' := ins + [g];
    assert ins'[..|ins|] == ins;
    forall j | 0 <= j < |out|
      ensures out[j].emails == Firsts(norm, ins', norm(out[j].domain))
      ensures out[j].needCatchAll <==> Needs(norm, ins', norm(out[j].domain))
    {
      assert was[j].emails == Firsts(norm, ins, norm(was[j].domain));
    }
  }

  lemma HousedNeed(out: seq<DomainGroup>, home: map<string, nat>, i: nat, need: bool)
    requires Housed(out, home) && i < |out|
    ensures Housed(out[i := out[i].(needCatchAll := need)], home)
  {
    var out' := out[i := out[i].(needCatchAll := need)];
    assert forall j :: 0 <= j < |out| ==> out'[j].emails == out[j].emails;
  }

  lemma MergedMore(norm: string -> string, ins: seq<DomainGroup>, g: DomainGroup, i: nat, was: seq<DomainGroup>,
                   out: seq<DomainGroup>, at: map<string, nat>, home: map<string, nat>, home': map<string, nat>)
    requires Merged(norm, ins, was, at, home) && i < |was| && norm(g.domain) in at && at[norm(g.domain)] == i
    requires Added(was[i := was[i].(needCatchAll := was[i].needCatchAll || g.needCatchAll)], home, i, g.emails, out, home')
    ensures Merged(norm, ins + [g], out, at, home')
  {
    FedMore(norm, ins, g, i, was, out, at);
    assert (ins + [g])[..|ins|] == ins;
    assert home'.Keys == Listed(ins + [g]);
    assert DomainsIn(norm, ins + [g], at);
  }

  lemma {:induction false} MentionedIn(norm: string -> string, ins: seq<DomainGroup>, d: string)
    ensures Mentioned(norm, ins, d) <==> exists h :: h in Heads(norm, ins) && norm(h) == d
  {
    if ins == [] {
    } else {
      var before, g := ins[..|ins| - 1], ins[|ins| - 1];
      MentionedIn(norm, before, d);
      MentionedIn(norm, before, norm(g.domain));
    }
  }

  /** A group of a domain not met before adds its head, and no other does. */
  lemma OneMoreHead(norm: string -> string, ins: seq<DomainGroup>, g: DomainGroup, out: seq<DomainGroup>, at: map<string, nat>)
    requires Indexed(norm, out, at) && DomainsIn(norm, ins, at) && Spelled(out, Heads(norm, ins))
    ensures Heads(norm, ins + [g]) == Heads(norm, ins) + (if norm(g.domain) in at then [] else [g.domain])
  {
    assert (ins + [g])[..|ins|] == ins;
    var d := norm(g.domain);
    if d in at {
      assert out[at[d]].domain in Heads(norm, ins);
      MentionedIn(norm, ins, d);
    } else {
      NotNeeded(norm, ins, at, d);
    }
  }

  /** The group of the domain, opened if it is the first of it. */
  method GroupFor(norm: string -> string, ghost ins: seq<DomainGroup>, g: DomainGroup, out: seq<DomainGroup>, at: map<string, nat>,
                  ghost home: map<string, nat>)
    returns (out': seq<DomainGroup>, at': map<string, nat>, i: nat)
    requires Merged(norm, ins, out, at, home) && Spelled(out, Heads(norm, ins))
    ensures Merged(norm, ins, out', at', home) && Spelled(out', Heads(norm, ins + [g]))
    ensures norm(g.domain) in at' && at'[norm(g.domain)] == i < |out'|
  {
    out', at' := out, at;
    OneMoreHead(norm, ins, g, out, at);
    var d := norm(g.domain);
    if d !in at {
      MergedNew(norm, ins, out, g.domain, at, home);
      at' := at[d := |out|];
      out' := out + [DomainGroup(g.domain, [], false)];
    }
    i := at'[d];
  }

  /** One group's need and addresses, folded into the group of its domain. */
  method FoldIn(norm: string -> string, ghost ins: seq<DomainGroup>, g: DomainGroup, i: nat, groups: seq<DomainGroup>,
                ghost at: map<string, nat>, seen: set<string>, ghost home: map<string, nat>)
    returns (out: seq<DomainGroup>, seen': set<string>, ghost home': map<string, nat>)
    requires Merged(norm, ins, groups, at, home) && seen == home.Keys
    requires norm(g.domain) in at && at[norm(g.domain)] == i < |groups|
    ensures Merged(norm, ins + [g], out, at, home') && seen' == home'.Keys
    ensures |out| == |groups| && forall j :: 0 <= j < |out| ==> out[j].domain == groups[j].domain
  {
    HousedNeed(groups, home, i, groups[i].needCatchAll || g.needCatchAll);
    out := groups[i := groups[i].(needCatchAll := groups[i].needCatchAll || g.needCatchAll)];
    out, seen', home' := AddEmails(out, i, g.emails, seen, home);
    MergedMore(norm, ins, g, i, groups, out, at, home, home');
  }

  /** The groups `done` so far have been folded into `out`. */
  ghost predicate Folded(norm: string -> string, done: seq<DomainGroup>, out: seq<DomainGroup>, at: map<string, nat>,
                         seen: set<string>, home: map<string, nat>)
  {
    true == (Merged(norm, done, out, at, home) && seen == home.Keys && Spelled(out, Heads(norm, done)))
  }

  lemma FoldedNone(norm: string -> string)
    ensures Folded(norm, [], [], map[], {}, map[])
  {
  }

  lemma FoldedMeans(norm: string -> string, ins: seq<DomainGroup>, done: seq<DomainGroup>, out: seq<DomainGroup>,
                    at: map<string, nat>, seen: set<string>, home: map<string, nat>)
    requires done == ins[..|ins|] && Folded(norm, done, out, at, seen, home)
    ensures Housed(out, home) && home.Keys == Listed(ins) && Fed(norm, ins, out) && Spelled(out, Heads(norm, ins))
    ensures forall i, j :: 0 <= i < j < |out| ==> norm(out[i].domain) != norm(out[j].domain)
  {
    assert done == ins;
  }

  method FoldNext(norm: string -> string, ins: seq<DomainGroup>, k: nat, ghost done: seq<DomainGroup>,
                  out: seq<DomainGroup>, at: map<string, nat>, seen: set<string>, ghost home: map<string, nat>)
    returns (out': seq<DomainGroup>, at': map<string, nat>, seen': set<string>, ghost home': map<string, nat>,
             ghost done': seq<DomainGroup>)
    requires k < |ins| && done == ins[..k] && Folded(norm, done, out, at, seen, home)
    ensures done' == ins[..k + 1] && Folded(norm, done', out', at', seen', home')
  {
    done' := done + [ins[k]];
    assert done' == ins[..k + 1];
    var i;
    out', at', i := GroupFor(norm, done, ins[k], out, at, home);
    out', seen', home' := FoldIn(norm, done, ins[k], i, out', at', seen, home);
  }

  /** Folds groups naming the same domain into one. Order is kept; an address is asked once. */
  method MergeGroups(norm: string -> string, ins: seq<DomainGroup>) returns (out: seq<DomainGroup>, ghost home: map<string, nat>)
    ensures Housed(out, home) && home.Keys == Listed(ins)
    ensures Fed(norm, ins, out) && Spelled(out, Heads(norm, ins))
    ensures forall i, j :: 0 <= i < j < |out| ==> norm(out[i].domain) != norm(out[j].domain)
  {
    out, home := [], map[];
    var at: map<string, nat>, seen: set<string> := map[], {};
    ghost var done: seq<DomainGroup> := [];
    FoldedNone(norm);
    for k := 0 to |ins|
      invariant done == ins[..k] && Folded(norm, done, out, at, seen, home)
    {
      out, at, seen, home, done := FoldNext(norm, ins, k, done, out, at, seen, home);
    }
    FoldedMeans(norm, ins, done, out, at, seen, home);
  }
}
