/** Addresses packed into sessions, and what a session handed back grouped again. */
module Packing {
  import opened Wrappers
  import opened Hosts
  import opened SessionSpec
  import opened RequestSpec

  function Joined(chunks: seq<seq<string>>): seq<string> {
    if chunks == [] then [] else Joined(chunks[..|chunks| - 1]) + chunks[|chunks| - 1]
  }

  /** Cuts a list into pieces of at most `n`, in order. */
  method Chunks(s: seq<string>, n: nat) returns (out: seq<seq<string>>)
    requires n >= 1
    ensures Joined(out) == s && out != []
    ensures forall k :: 0 <= k < |out| ==> |out[k]| <= n && (k < |out| - 1 ==> |out[k]| == n)
    ensures s != [] ==> forall k :: 0 <= k < |out| ==> out[k] != []
  {
    out := [];
    var left := s;
    while |left| > n
      invariant Joined(out) + left == s && (s != [] ==> left != [])
      invariant forall k :: 0 <= k < |out| ==> |out[k]| == n
    {
      assert (out + [left[..n]])[..|out|] == out;
      assert left == left[..n] + left[n..];
      out, left := out + [left[..n]], left[n..];
    }
    assert (out + [left])[..|out|] == out;
    out := out + [left];
  }

  /** Groups worth a session: not empty, and labelled with their addresses' domain. */
  ghost predicate WellKept(groups: seq<Group>, domainOf: map<string, string>) {
    forall g :: g in groups ==> g.addrs != [] && forall a :: a in g.addrs ==> a in domainOf && domainOf[a] == g.domain
  }

  lemma {:induction false} WellKeptFlatten(groups: seq<Group>, domainOf: map<string, string>)
    requires WellKept(groups, domainOf)
    ensures forall a :: a in Flatten(groups) ==> a in domainOf
    ensures |groups| <= |Flatten(groups)|
  {
    if groups == [] {
    } else {
      WellKeptFlatten(groups[..|groups| - 1], domainOf);
      assert groups[|groups| - 1] in groups;
    }
  }

  lemma WellKeptParts(a: seq<Group>, b: seq<Group>, domainOf: map<string, string>)
    requires WellKept(a + b, domainOf)
    ensures WellKept(a, domainOf) && WellKept(b, domainOf)
  {
    forall g | g in a || g in b ensures g in a + b {
    }
  }

  lemma WellKeptJoin(a: seq<Group>, b: seq<Group>, domainOf: map<string, string>)
    requires WellKept(a, domainOf) && WellKept(b, domainOf)
    ensures WellKept(a + b, domainOf)
  {
    forall g | g in a + b ensures g in a || g in b {
    }
  }

  lemma FlattenOne(g: Group)
    ensures Flatten([g]) == g.addrs
  {
    assert Flatten([g]) == Flatten([]) + g.addrs;
  }

  lemma WellKeptPieces(g: Group, head: Group, tail: Group, domainOf: map<string, string>)
    requires WellKept([g], domainOf) && head.addrs != [] && tail.addrs != [] && g.addrs == head.addrs + tail.addrs
    requires head.domain == g.domain && tail.domain == g.domain
    ensures WellKept([head], domainOf) && WellKept([tail], domainOf)
  {
    assert g in [g];
  }

  lemma SplitGroup(g: Group, rest: seq<Group>, limit: nat, domainOf: map<string, string>)
    requires 1 <= limit < |g.addrs| && WellKept([g] + rest, domainOf)
    ensures var head := Group(g.domain, g.addrs[..limit], false);
            var tail := Group(g.domain, g.addrs[limit..], false);
            && Flatten([head]) + Flatten([tail] + rest) == Flatten([g] + rest)
            && WellKept([head], domainOf) && WellKept([tail] + rest, domainOf)
            && |Flatten([head])| == limit
  {
    var head := Group(g.domain, g.addrs[..limit], false);
    var tail := Group(g.domain, g.addrs[limit..], false);
    FlattenConcat([g], rest);
    FlattenConcat([tail], rest);
    FlattenOne(g);
    FlattenOne(head);
    FlattenOne(tail);
    assert g.addrs == head.addrs + tail.addrs;
    WellKeptParts([g], rest, domainOf);
    WellKeptPieces(g, head, tail, domainOf);
    WellKeptJoin([tail], rest, domainOf);
  }

  /** As many whole groups from the front of the queue as fit. */
  method FillSession(queue: seq<Group>, limit: nat, grouped: bool) returns (batch: seq<Group>, rest: seq<Group>)
    requires queue != [] && |queue[0].addrs| <= limit
    ensures batch + rest == queue && batch != [] && |Flatten(batch)| <= limit && (!grouped ==> |batch| == 1)
    ensures grouped && rest != [] ==> |Flatten(batch)| + |rest[0].addrs| > limit
  {
    FlattenOne(queue[0]);
    batch, rest := [queue[0]], queue[1..];
    var total := |queue[0].addrs|;
    while grouped && |rest| > 0 && total + |rest[0].addrs| <= limit
      invariant batch != [] && total == |Flatten(batch)| <= limit && (!grouped ==> |batch| == 1)
      invariant batch + rest == queue
    {
      FlattenConcat(batch, [rest[0]]);
      FlattenOne(rest[0]);
      total := total + |rest[0].addrs|;
      assert batch + [rest[0]] + rest[1..] == batch + rest;
      batch, rest := batch + [rest[0]], rest[1..];
    }
  }

  /** Takes the next session's groups off the queue: whole domains up to `limit` addresses when
      grouped, otherwise one domain; a domain larger than `limit` is split. Nothing is lost, added or
      reordered, and a grouped batch is as large as it can be. */
  method TakeSession(queue: seq<Group>, limit: nat, grouped: bool, ghost domainOf: map<string, string>)
    returns (batch: seq<Group>, rest: seq<Group>)
    requires queue != [] && limit >= 1 && WellKept(queue, domainOf)
    ensures Flatten(batch) + Flatten(rest) == Flatten(queue)
    ensures batch != [] && |Flatten(batch)| <= limit && (!grouped ==> |batch| == 1)
    ensures WellKept(batch, domainOf) && WellKept(rest, domainOf)
    ensures |queue[0].addrs| > limit ==> |batch| == 1 && |Flatten(batch)| == limit
    ensures grouped && |queue[0].addrs| <= limit && rest != [] ==> |Flatten(batch)| + |rest[0].addrs| > limit
  {
    var first := queue[0];
    assert queue == [first] + queue[1..];
    if |first.addrs| > limit {
      SplitGroup(first, queue[1..], limit, domainOf);
      batch := [Group(first.domain, first.addrs[..limit], false)];
      rest := [Group(first.domain, first.addrs[limit..], false)] + queue[1..];
      return;
    }
    batch, rest := FillSession(queue, limit, grouped);
    FlattenConcat(batch, rest);
    WellKeptParts(batch, rest, domainOf);
  }

  /** No two neighbours are of one domain. */
  ghost predicate Apart(groups: seq<Group>) {
    forall k :: 0 < k < |groups| ==> groups[k - 1].domain != groups[k].domain
  }

  lemma WellKeptLast(groups: seq<Group>, g: Group, domainOf: map<string, string>, a: string)
    requires WellKept(groups, domainOf) && groups != [] && a in domainOf
    requires var last := groups[|groups| - 1];
             g == last.(addrs := last.addrs + [a]) && last.domain == domainOf[a]
    ensures WellKept(groups[|groups| - 1 := g], domainOf)
  {
    assert groups[|groups| - 1] in groups;
    forall h | h in groups[|groups| - 1 := g] ensures h == g || h in groups {
    }
  }

  lemma FlattenLast(groups: seq<Group>, out: seq<Group>, a: string)
    requires |groups| == |out| > 0 && out[..|out| - 1] == groups[..|groups| - 1]
    requires out[|out| - 1].addrs == groups[|groups| - 1].addrs + [a]
    ensures Flatten(out) == Flatten(groups) + [a]
  {
  }

  lemma PutInLast(groups: seq<Group>, out: seq<Group>, a: string, domainOf: map<string, string>)
    requires WellKept(groups, domainOf) && Apart(groups) && groups != [] && a in domainOf
    requires var n := |groups|;
             && out == groups[n - 1 := groups[n - 1].(addrs := groups[n - 1].addrs + [a])]
             && groups[n - 1].domain == domainOf[a]
    ensures Flatten(out) == Flatten(groups) + [a] && WellKept(out, domainOf) && Apart(out)
  {
    assert Apart(out) by {
      assert forall k :: 0 <= k < |out| ==> out[k].domain == groups[k].domain;
    }
    FlattenLast(groups, out, a);
    WellKeptLast(groups, out[|out| - 1], domainOf, a);
  }

  lemma PutApart(groups: seq<Group>, g: Group, domainOf: map<string, string>)
    requires WellKept(groups, domainOf) && Apart(groups) && WellKept([g], domainOf)
    requires groups != [] ==> groups[|groups| - 1].domain != g.domain
    ensures Flatten(groups + [g]) == Flatten(groups) + g.addrs && WellKept(groups + [g], domainOf) && Apart(groups + [g])
  {
    FlattenConcat(groups, [g]);
    FlattenOne(g);
    WellKeptJoin(groups, [g], domainOf);
  }

  /** One more address at the end: in the last group if it is of its domain, else in a group of its own. */
  method PutLast(groups: seq<Group>, a: string, d: string, ghost domainOf: map<string, string>) returns (out: seq<Group>)
    requires a in domainOf && domainOf[a] == d && WellKept(groups, domainOf) && Apart(groups)
    ensures Flatten(out) == Flatten(groups) + [a] && WellKept(out, domainOf) && Apart(out)
  {
    var n := |groups|;
    if n > 0 && groups[n - 1].domain == d {
      out := groups[n - 1 := groups[n - 1].(addrs := groups[n - 1].addrs + [a])];
      PutInLast(groups, out, a, domainOf);
    } else {
      out := groups + [Group(d, [a], false)];
      PutApart(groups, Group(d, [a], false), domainOf);
    }
  }

  /** Turns handed-back addresses into one group per run of addresses of the same domain. */
  method Regrouped(addrs: seq<string>, domainOf: map<string, string>) returns (out: seq<Group>)
    requires forall a :: a in addrs ==> a in domainOf
    ensures Flatten(out) == addrs && WellKept(out, domainOf) && Apart(out)
  {
    out := [];
    for i := 0 to |addrs|
      invariant Flatten(out) == addrs[..i] && WellKept(out, domainOf) && Apart(out)
    {
      assert addrs[..i + 1] == addrs[..i] + [addrs[i]];
      out := PutLast(out, addrs[i], domainOf[addrs[i]], domainOf);
    }
    assert addrs[..|addrs|] == addrs;
  }
}
