/** What a message's signature covers, and what a verifier recomputes from the message as it arrives. */
module Signing {
  import opened Wrappers
  import opened Text
  import opened Transport
  import opened Dkim
  import Hosts

  datatype Header = Header(name: string, value: string)

  const SIGNED: seq<string> :=
    ["from", "to", "subject", "date", "message-id", "mime-version", "content-type"]

  function CanonHeader(h: Header): string {
    Hosts.Lower(Hosts.TrimSpace(h.name)) + ":" + CanonValue(h.value) + CRLF
  }

  /** The instance nearest the bottom of the message: the one section 5.4.2 of RFC 6376 has signed. */
  function LastNamed(headers: seq<Header>, name: string): Option<Header> {
    if headers == [] then None
    else if Hosts.Lower(headers[|headers| - 1].name) == name then Some(headers[|headers| - 1])
    else LastNamed(headers[..|headers| - 1], name)
  }

  /** The names listed in h=: those the message has. */
  function Listed<T>(last: string -> Option<T>, names: seq<string>): seq<string> {
    if names == [] then []
    else (if last(names[0]).Some? then [names[0]] else []) + Listed(last, names[1..])
  }

  /** What is hashed for one name. */
  function CoveredFor<T>(last: Option<T>, text: T -> string): string {
    match last case None => "" case Some(h) => text(h)
  }

  /** The text that is hashed for the names in h=. */
  function Covered<T>(last: string -> Option<T>, text: T -> string, names: seq<string>): string {
    if names == [] then ""
    else
      CoveredFor(last(names[0]), text) + Covered(last, text, names[1..])
  }

  method Present(headers: seq<Header>) returns (present: map<string, Header>)
    ensures forall name ::
      LastNamed(headers, name) == if name in present then Some(present[name]) else None
  {
    present := map[];
    for i := 0 to |headers|
      invariant forall name ::
        LastNamed(headers[..i], name) == if name in present then Some(present[name]) else None
    {
      assert headers[..i + 1][..i] == headers[..i];
      present := present[Hosts.Lower(headers[i].name) := headers[i]];
    }
    assert headers[..|headers|] == headers;
  }

  lemma CoverStep<T>(last: string -> Option<T>, text: T -> string, names: seq<string>, i: nat)
    requires i < |names|
    ensures Covered(last, text, names[i..]) == CoveredFor(last(names[i]), text) + Covered(last, text, names[i + 1..])
    ensures Listed(last, names[i..]) == (if last(names[i]).Some? then [names[i]] else []) + Listed(last, names[i + 1..])
  {
    assert names[i..][1..] == names[i + 1..];
  }

  lemma Regroup<T>(a: seq<T>, b: seq<T>, c: seq<T>)
    ensures a + b + c == a + (b + c)
  {
  }

  method CoverNames<T>(present: map<string, T>, ghost last: string -> Option<T>, text: T -> string, names: seq<string>)
    returns (list: seq<string>, canon: string)
    requires forall name :: last(name) == if name in present then Some(present[name]) else None
    ensures list == Listed(last, names) && canon == Covered(last, text, names)
  {
    list, canon := [], "";
    ghost var toList, toCover := Listed(last, names), Covered(last, text, names);
    for i := 0 to |names|
      invariant toList == Listed(last, names[i..]) && toCover == Covered(last, text, names[i..])
      invariant list + toList == Listed(last, names)
      invariant canon + toCover == Covered(last, text, names)
    {
      CoverStep(last, text, names, i);
      toList, toCover := Listed(last, names[i + 1..]), Covered(last, text, names[i + 1..]);
      assert last(names[i]) == if names[i] in present then Some(present[names[i]]) else None;
      if names[i] !in present {
        assert [] + toList == toList && "" + toCover == toCover;
        continue;
      }
      Regroup(list, [names[i]], toList);
      Regroup(canon, text(present[names[i]]), toCover);
      list := list + [names[i]];
      canon := canon + text(present[names[i]]);
    }
    assert toList == [] && toCover == "" && list + [] == list && canon + "" == canon;
  }

  /** The header part of signing: which names are listed in h=, and the header text that is hashed. */
  method CoverHeaders(headers: seq<Header>) returns (list: seq<string>, canon: string)
    ensures list == Listed(name => LastNamed(headers, name), SIGNED)
    ensures canon == Covered(name => LastNamed(headers, name), CanonHeader, SIGNED)
  {
    var present := Present(headers);
    list, canon := CoverNames(present, name => LastNamed(headers, name), CanonHeader, SIGNED);
  }

  // ---------------------------------------------------------------- the message on the wire

  function HeaderLine(h: Header): string {
    h.name + ": " + h.value
  }

  function HeaderLines(headers: seq<Header>): seq<string> {
    seq(|headers|, i requires 0 <= i < |headers| => HeaderLine(headers[i]))
  }

  /** Headers, a blank line, the body. */
  function Rendered(headers: seq<Header>, body: string): string {
    Ended(HeaderLines(headers)) + CRLF + body
  }

  method Render(headers: seq<Header>, body: string) returns (out: string)
    ensures out == Rendered(headers, body)
  {
    out := "";
    for i := 0 to |headers|
      invariant out == Ended(HeaderLines(headers[..i]))
    {
      var h := headers[i];
      assert HeaderLines(headers[..i + 1]) == HeaderLines(headers[..i]) + [HeaderLine(h)];
      EndedConcat(HeaderLines(headers[..i]), [HeaderLine(h)]);
      out := out + (h.name + ": " + h.value + CRLF);
    }
    assert headers[..|headers|] == headers;
    out := out + CRLF;
    out := out + body;
  }

  // ---------------------------------------------------------------- the verifier

  /** A received header field, divided at its first colon. */
  function Field(text: string): Header {
    if text == "" then Header("", "")
    else if text[0] == ':' then Header("", text[1..])
    else var f := Field(text[1..]); Header([text[0]] + f.name, f.value)
  }

  /** The name of a received field, as names are compared: white space before the colon does not count. */
  function KeyOf(text: string): string {
    Hosts.Lower(TrimEnd(Field(text).name))
  }

  /** A line that goes on with the field before it. */
  predicate Folds(line: string) {
    line != "" && IsWsp(line[0])
  }

  /** The field that begins at a line, with the lines that go on with it. */
  function Whole(ls: seq<string>, i: nat): string
    requires i < |ls|
    decreases |ls| - i
  {
    if i + 1 < |ls| && Folds(ls[i + 1]) then ls[i] + CRLF + Whole(ls, i + 1) else ls[i]
  }

  /** Where the lowest field of a name begins, among those that begin in the first `k` lines. */
  function Lowest(ls: seq<string>, k: nat, name: string): Option<nat>
    requires k <= |ls|
  {
    if k == 0 then None
    else if !Folds(ls[k - 1]) && KeyOf(Whole(ls, k - 1)) == name then Some(k - 1)
    else Lowest(ls, k - 1, name)
  }

  /** What a verifier takes for a name. */
  function Found(ls: seq<string>, name: string): Option<Header> {
    match Lowest(ls, |ls|, name)
    case None => None
    case Some(i) => if i < |ls| then Some(Field(Whole(ls, i))) else None
  }

  /** The lines before the first blank one. */
  function Head(ls: seq<string>): seq<string> {
    if ls == [] || ls[0] == "" then [] else [ls[0]] + Head(ls[1..])
  }

  /** The lines after the first blank one. */
  function Body(ls: seq<string>): seq<string> {
    if ls == [] then [] else if ls[0] == "" then ls[1..] else Body(ls[1..])
  }

  lemma {:induction false} HeadAndBody(head: seq<string>, rest: seq<string>)
    requires "" !in head
    ensures Head(head + [""] + rest) == head && Body(head + [""] + rest) == rest
  {
    var ls := head + [""] + rest;
    if head == [] {
      assert ls[1..] == rest;
    } else {
      HeadAndBody(head[1..], rest);
      assert ls[1..] == head[1..] + [""] + rest;
    }
  }

  lemma {:induction false} FieldOfLine(name: string, value: string)
    requires ':' !in name
    ensures Field(name + ":" + value) == Header(name, value)
  {
    var line := name + ":" + value;
    if name == "" {
      assert line[1..] == value;
    } else {
      FieldOfLine(name[1..], value);
      assert line[1..] == name[1..] + ":" + value;
    }
  }

  /** What follows a colon does not matter to the name. */
  lemma {:induction false} FieldName(a: string, b: string)
    ensures ':' in a ==> Field(a + b).name == Field(a).name
    ensures Field(a + ":" + b).name == Field(a).name
  {
    if a == "" {
    } else {
      FieldName(a[1..], b);
      assert (a + b)[1..] == a[1..] + b;
      assert (a + ":" + b)[1..] == a[1..] + ":" + b;
    }
  }

  // ---------------------------------------------------------------- which line is taken

  /** The name a verifier reads in a header that was rendered, where it begins a field at all: what
      precedes the first colon of its name. */
  function ReadAs(h: Header): Option<string> {
    if Folds(h.name) then None else Some(KeyOf(h.name))
  }

  /** A header name as h= lists it. */
  predicate IsToken(n: string) {
    n != "" && ':' !in n && Hosts.Lower(n) == n && (forall c :: c in n ==> !Hosts.IsSpace(c))
  }

  lemma RenderedKey(h: Header, more: string)
    ensures Folds(HeaderLine(h)) <==> Folds(h.name)
    ensures KeyOf(HeaderLine(h)) == KeyOf(h.name) && KeyOf(HeaderLine(h) + more) == KeyOf(h.name)
  {
    assert HeaderLine(h) == h.name + ":" + (" " + h.value);
    FieldName(h.name, " " + h.value);
    assert HeaderLine(h) + more == h.name + ":" + (" " + h.value + more);
    FieldName(h.name, " " + h.value + more);
  }

  lemma TrimEndNothing(s: string)
    requires s == "" || !IsWsp(s[|s| - 1])
    ensures TrimEnd(s) == s
  {
  }

  lemma {:induction false} FieldOfPlain(s: string)
    requires ':' !in s
    ensures Field(s).name == s
  {
    if s == "" {
    } else {
      FieldOfPlain(s[1..]);
    }
  }

  /** No character of it is white space or a colon. */
  predicate Solid(name: string) {
    forall i :: 0 <= i < |name| ==> name[i] != ':' && !Hosts.IsSpace(name[i])
  }

  lemma NamedSolidly(name: string, n: string)
    requires IsToken(n) && Hosts.Lower(name) == n
    ensures Solid(name) && name != ""
  {
    forall i | 0 <= i < |name| ensures name[i] != ':' && !Hosts.IsSpace(name[i]) {
      assert n[i] == Hosts.LowerChar(name[i]) && n[i] in n;
    }
  }

  lemma SolidIsTrimmed(name: string)
    requires Solid(name)
    ensures Hosts.TrimSpace(name) == name
  {
    assert Hosts.TrimLeft(name) == name;
    assert Hosts.TrimRight(name) == name;
  }

  lemma SolidKey(name: string)
    requires Solid(name) && name != ""
    ensures ':' !in name && !Folds(name) && KeyOf(name) == Hosts.Lower(name)
  {
    assert !Hosts.IsSpace(name[0]) && !Hosts.IsSpace(name[|name| - 1]);
    assert ':' !in name;
    FieldOfPlain(name);
    TrimEndNothing(name);
  }

  /** A name that is folded to a token is one, but for case. */
  lemma NamedPlainly(name: string, n: string)
    requires IsToken(n) && Hosts.Lower(name) == n
    ensures ':' !in name && !Folds(name) && KeyOf(name) == n
  {
    NamedSolidly(name, n);
    SolidKey(name);
  }

  /** How headers are looked at: the name each is read as, the name each was given, and whether it is read as
      part of the one above. What follows holds of any manner. */
  datatype Manner = Manner(read: Header -> Option<string>, named: Header -> string, continues: Header -> bool)

  function NameOf(h: Header): string {
    Hosts.Lower(h.name)
  }

  predicate Continues(h: Header) {
    Folds(h.name)
  }

  const RENDERED := Manner(ReadAs, NameOf, Continues)

  /** What follows a header is read as part of it. */
  predicate GoesOn(m: Manner, headers: seq<Header>, i: nat) {
    i + 1 < |headers| && m.continues(headers[i + 1])
  }

  /** Of the first `k` headers, the lowest read as `n` is at `v`. */
  ghost predicate LowestRead(m: Manner, headers: seq<Header>, k: nat, n: string, v: Option<nat>) {
    k <= |headers| &&
    if v.None? then forall j :: 0 <= j < k ==> m.read(headers[j]) != Some(n)
    else v.value < k && m.read(headers[v.value]) == Some(n) && forall j :: v.value < j < k ==> m.read(headers[j]) != Some(n)
  }

  /** Of the first `k` headers, the lowest named `n` is at `v`. */
  ghost predicate LowestNamed(m: Manner, headers: seq<Header>, k: nat, n: string, v: Option<nat>) {
    k <= |headers| &&
    if v.None? then forall j :: 0 <= j < k ==> m.named(headers[j]) != n
    else v.value < k && m.named(headers[v.value]) == n && forall j :: v.value < j < k ==> m.named(headers[j]) != n
  }

  /** The lowest header read as `n` is not named so, or what follows it is read as part of it. */
  ghost predicate Shadowed(m: Manner, headers: seq<Header>, n: string) {
    exists i: nat ::
      LowestRead(m, headers, |headers|, n, Some(i)) && (m.named(headers[i]) != n || GoesOn(m, headers, i))
  }

  /** A header named `n` is read so. */
  ghost predicate NamedIsRead(m: Manner, headers: seq<Header>, n: string) {
    forall i :: 0 <= i < |headers| && m.named(headers[i]) == n ==> m.read(headers[i]) == Some(n)
  }

  lemma LowestAgree(m: Manner, headers: seq<Header>, n: string, read: Option<nat>, named: Option<nat>)
    requires NamedIsRead(m, headers, n)
    requires LowestRead(m, headers, |headers|, n, read) && LowestNamed(m, headers, |headers|, n, named)
    ensures read == named && (read.Some? ==> !GoesOn(m, headers, read.value)) <==> !Shadowed(m, headers, n)
  {
    if read.Some? {
      assert LowestRead(m, headers, |headers|, n, Some(read.value));
    }
  }

  lemma {:induction false} SomeLowest(m: Manner, headers: seq<Header>, i: nat, n: string) returns (low: nat)
    requires i < |headers| && m.read(headers[i]) == Some(n)
    ensures i <= low && LowestRead(m, headers, |headers|, n, Some(low))
    decreases |headers| - i
  {
    if j :| i < j < |headers| && m.read(headers[j]) == Some(n) {
      low := SomeLowest(m, headers, j, n);
    } else {
      low := i;
    }
  }

  lemma BelowOne(m: Manner, first: Header, headers: seq<Header>, n: string, i: nat)
    requires i < |headers|
    ensures LowestRead(m, [first] + headers, |headers| + 1, n, Some(i + 1)) <==> LowestRead(m, headers, |headers|, n, Some(i))
    ensures GoesOn(m, [first] + headers, i + 1) <==> GoesOn(m, headers, i)
  {
    var all := [first] + headers;
    assert forall j :: 0 <= j < |headers| ==> all[j + 1] == headers[j];
    if LowestRead(m, all, |all|, n, Some(i + 1)) {
      forall j | i < j < |headers| ensures m.read(headers[j]) != Some(n) {
        assert m.read(all[j + 1]) != Some(n);
      }
    }
  }

  /** A header above that is not read as the name does not matter. */
  lemma ShadowedBelow(m: Manner, first: Header, headers: seq<Header>, n: string)
    requires m.read(first) != Some(n)
    ensures Shadowed(m, [first] + headers, n) <==> Shadowed(m, headers, n)
  {
    var all := [first] + headers;
    if i: nat :| LowestRead(m, headers, |headers|, n, Some(i)) && (m.named(headers[i]) != n || GoesOn(m, headers, i)) {
      BelowOne(m, first, headers, n, i);
    }
    if i: nat :| LowestRead(m, all, |all|, n, Some(i)) && (m.named(all[i]) != n || GoesOn(m, all, i)) {
      assert i > 0;
      BelowOne(m, first, headers, n, i - 1);
    }
  }

  // ---------------------------------------------------------------- the line the signer means

  /** Where the signer finds the header it signs for a name. */
  function Signed(headers: seq<Header>, k: nat, n: string): Option<nat>
    requires k <= |headers|
  {
    if k == 0 then None
    else if NameOf(headers[k - 1]) == n then Some(k - 1)
    else Signed(headers, k - 1, n)
  }

  lemma {:induction false} SignedMeans(headers: seq<Header>, k: nat, n: string)
    requires k <= |headers|
    ensures LowestNamed(RENDERED, headers, k, n, Signed(headers, k, n))
    ensures LastNamed(headers[..k], n) ==
            var v := Signed(headers, k, n); if v.Some? && v.value < k then Some(headers[v.value]) else None
  {
    if k == 0 {
    } else {
      SignedMeans(headers, k - 1, n);
      assert headers[..k][..k - 1] == headers[..k - 1];
    }
  }

  lemma {:induction false} WholeKey(headers: seq<Header>, i: nat)
    requires i < |headers|
    ensures KeyOf(Whole(HeaderLines(headers), i)) == KeyOf(headers[i].name)
    ensures Folds(HeaderLines(headers)[i]) <==> Folds(headers[i].name)
    ensures Whole(HeaderLines(headers), i) == HeaderLine(headers[i]) <==> !GoesOn(RENDERED, headers, i)
  {
    var ls := HeaderLines(headers);
    RenderedKey(headers[i], "");
    if i + 1 < |headers| {
      RenderedKey(headers[i + 1], "");
      if Folds(ls[i + 1]) {
        RenderedKey(headers[i], CRLF + Whole(ls, i + 1));
        assert Whole(ls, i) == HeaderLine(headers[i]) + (CRLF + Whole(ls, i + 1));
        assert |Whole(ls, i)| > |HeaderLine(headers[i])|;
      }
    }
  }

  lemma LowestStep(m: Manner, headers: seq<Header>, k: nat, n: string, v: Option<nat>)
    requires 0 < k <= |headers| && LowestRead(m, headers, k - 1, n, v)
    ensures LowestRead(m, headers, k, n, if m.read(headers[k - 1]) == Some(n) then Some(k - 1) else v)
  {
  }

  /** The verifier finds the lowest header read as the name. */
  lemma {:induction false} LowestMeans(headers: seq<Header>, k: nat, n: string)
    requires k <= |headers|
    ensures LowestRead(RENDERED, headers, k, n, Lowest(HeaderLines(headers), k, n))
  {
    if k == 0 {
    } else {
      LowestMeans(headers, k - 1, n);
      WholeKey(headers, k - 1);
      LowestStep(RENDERED, headers, k, n, Lowest(HeaderLines(headers), k - 1, n));
    }
  }

  /** The verifier takes for the name the very line the signer signed for it, all of it and no more; or
      neither finds one. */
  ghost predicate SameLine(headers: seq<Header>, n: string) {
    var ls, i := HeaderLines(headers), Signed(headers, |headers|, n);
    Lowest(ls, |headers|, n) == i && (i.Some? ==> i.value < |headers| && Whole(ls, i.value) == HeaderLine(headers[i.value]))
  }

  lemma NamesRead(headers: seq<Header>, n: string)
    requires IsToken(n)
    ensures NamedIsRead(RENDERED, headers, n)
  {
    forall i | 0 <= i < |headers| && NameOf(headers[i]) == n ensures ReadAs(headers[i]) == Some(n) {
      NamedPlainly(headers[i].name, n);
    }
  }

  /** Signer and verifier mean the same line exactly when the lowest header read as the name is named so
      and nothing goes on with it. */
  lemma SameLineExactlyWhen(headers: seq<Header>, n: string)
    requires IsToken(n)
    ensures SameLine(headers, n) <==> !Shadowed(RENDERED, headers, n)
  {
    var v, s := Lowest(HeaderLines(headers), |headers|, n), Signed(headers, |headers|, n);
    LowestMeans(headers, |headers|, n);
    SignedMeans(headers, |headers|, n);
    NamesRead(headers, n);
    LowestAgree(RENDERED, headers, n, v, s);
    if v.Some? {
      WholeKey(headers, v.value);
    }
  }

  // ---------------------------------------------------------------- what is hashed

  /** What a header looks like to whoever divides its line at the colon. */
  function Seen(h: Header): Header {
    Header(h.name, " " + h.value)
  }

  lemma FieldOfHeader(h: Header)
    requires ':' !in h.name
    ensures Field(HeaderLine(h)) == Seen(h) && CanonHeader(Seen(h)) == CanonHeader(h)
  {
    assert HeaderLine(h) == h.name + ":" + (" " + h.value);
    FieldOfLine(h.name, " " + h.value);
    LeadingSpaceIgnored(h.value);
  }

  lemma FoundIsSigned(headers: seq<Header>, n: string)
    requires IsToken(n) && SameLine(headers, n)
    ensures match LastNamed(headers, n)
            case None => Found(HeaderLines(headers), n) == None
            case Some(h) => Found(HeaderLines(headers), n) == Some(Seen(h)) && CanonHeader(Seen(h)) == CanonHeader(h)
  {
    SignedMeans(headers, |headers|, n);
    assert headers[..|headers|] == headers;
    var s := Signed(headers, |headers|, n);
    if s.Some? {
      NamedPlainly(headers[s.value].name, n);
      FieldOfHeader(headers[s.value]);
    }
  }

  lemma {:induction false} LastBelow(first: Header, headers: seq<Header>, n: string)
    requires Hosts.Lower(first.name) != n
    ensures LastNamed([first] + headers, n) == LastNamed(headers, n)
  {
    var all := [first] + headers;
    if headers == [] {
      assert all[..0] == [];
    } else {
      LastBelow(first, headers[..|headers| - 1], n);
      assert all[..|headers|] == [first] + headers[..|headers| - 1];
    }
  }

  lemma FoundCovers(first: Header, headers: seq<Header>, n: string)
    requires IsToken(n) && ReadAs(first) != Some(n) && SameLine([first] + headers, n)
    ensures CoveredFor(Found(HeaderLines([first] + headers), n), CanonHeader) == CoveredFor(LastNamed(headers, n), CanonHeader)
  {
    NamesRead([first], n);
    assert NameOf(first) != n by { assert [first][0] == first; }
    LastBelow(first, headers, n);
    FoundIsSigned([first] + headers, n);
  }

  lemma {:induction false} CoverAlike<S, T>(f: string -> Option<S>, ftext: S -> string, g: string -> Option<T>, gtext: T -> string,
                                            names: seq<string>)
    requires forall i :: 0 <= i < |names| ==> CoveredFor(f(names[i]), ftext) == CoveredFor(g(names[i]), gtext)
    ensures Covered(f, ftext, names) == Covered(g, gtext, names)
  {
    if names == [] {
    } else {
      CoverAlike(f, ftext, g, gtext, names[1..]);
    }
  }

  /** With the signature's own header above the rest. */
  lemma SameCover(first: Header, headers: seq<Header>, names: seq<string>)
    requires forall n :: n in names ==> IsToken(n) && ReadAs(first) != Some(n) && SameLine([first] + headers, n)
    ensures Covered(name => Found(HeaderLines([first] + headers), name), CanonHeader, names) ==
            Covered(name => LastNamed(headers, name), CanonHeader, names)
  {
    forall i | 0 <= i < |names|
      ensures CoveredFor(Found(HeaderLines([first] + headers), names[i]), CanonHeader) == CoveredFor(LastNamed(headers, names[i]), CanonHeader)
    {
      FoundCovers(first, headers, names[i]);
    }
    CoverAlike(name => Found(HeaderLines([first] + headers), name), CanonHeader, name => LastNamed(headers, name), CanonHeader, names);
  }

  /** What is hashed for the names the signer looks for is what is hashed for those it lists in h=. */
  lemma {:induction false} ListedCover<T>(last: string -> Option<T>, text: T -> string, names: seq<string>)
    ensures Covered(last, text, Listed(last, names)) == Covered(last, text, names)
  {
    if names == [] {
    } else {
      ListedCover(last, text, names[1..]);
      var rest := Listed(last, names[1..]);
      if last(names[0]).Some? {
        assert ([names[0]] + rest)[1..] == rest;
      } else {
        assert [] + rest == rest;
        assert "" + Covered(last, text, names[1..]) == Covered(last, text, names[1..]);
      }
    }
  }

  lemma {:induction false} ListedAmong<T>(last: string -> Option<T>, names: seq<string>, n: string)
    requires n in Listed(last, names)
    ensures n in names
  {
    if n != names[0] {
      ListedAmong(last, names[1..], n);
    }
  }

  ghost predicate OnOneLine(headers: seq<Header>) {
    forall i :: 0 <= i < |headers| ==> OneLine(headers[i].name) && OneLine(headers[i].value)
  }

  lemma LinesOnOne(headers: seq<Header>)
    requires OnOneLine(headers)
    ensures AllLines(HeaderLines(headers)) && "" !in HeaderLines(headers)
  {
  }

  lemma RenderedEnded(headers: seq<Header>, body: string)
    ensures Rendered(headers, body) == Ended(HeaderLines(headers) + [""]) + body
  {
    EndedConcat(HeaderLines(headers), [""]);
    assert Ended([""]) == CRLF;
  }

  lemma LastLine(head: seq<string>, body: string) returns (rest: seq<string>)
    ensures var ls := head + Lines(body); head + rest == if ls[|ls| - 1] == "" then ls[..|ls| - 1] else ls
    ensures CanonBodyLines(rest) == CanonBody(body)
  {
    var ls := Lines(body);
    rest := ls;
    if ls[|ls| - 1] == "" {
      rest := ls[..|ls| - 1];
      assert ls == rest + [""];
      EmptyEndIgnored(rest);
      assert (head + ls)[..|head + ls| - 1] == head + rest;
    }
  }

  /** What arrives: the header lines, a blank line, and body lines that differ from those of the body at
      most by an empty one at the end. */
  lemma Arrives(headers: seq<Header>, body: string) returns (rest: seq<string>)
    requires OnOneLine(headers)
    ensures WireLines(Rendered(headers, body)) == HeaderLines(headers) + [""] + rest
    ensures CanonBodyLines(rest) == CanonBody(body)
  {
    LinesOnOne(headers);
    var head := HeaderLines(headers) + [""];
    RenderedEnded(headers, body);
    LinesOfEnded(head, body);
    rest := LastLine(head, body);
  }

  /** The signature's own header goes above the rest. */
  lemma {:induction false} PutAbove(first: Header, headers: seq<Header>, body: string)
    ensures HeaderLine(first) + CRLF + Rendered(headers, body) == Rendered([first] + headers, body)
  {
    var hs := HeaderLines(headers);
    assert HeaderLines([first] + headers) == [HeaderLine(first)] + hs;
    assert ([HeaderLine(first)] + hs)[1..] == hs;
    assert HeaderLine(first) + CRLF + (Ended(hs) + CRLF + body) == HeaderLine(first) + CRLF + Ended(hs) + CRLF + body;
  }

  /** For every message whose headers are on one line each: a verifier that takes it off the wire, whatever
      else is said on the connection, and divides head from body at the first blank line has the headers as
      they were written, below the signature's own, and hashes for the body exactly what the signer
      hashed. */
  lemma MessageArrives(sig: Header, headers: seq<Header>, body: string, data: string, wire: string, rest: string)
    requires OnOneLine([sig] + headers)
    requires data == HeaderLine(sig) + CRLF + Rendered(headers, body)
    requires wire == Ended(Stuffed(WireLines(data))) + ".\r\n"
    ensures var got := Receive(wire + rest);
            && got.Took? && got.rest == rest && CanonBodyLines(Body(got.value)) == CanonBody(body)
            && Head(got.value) == HeaderLines([sig] + headers)
  {
    var all := [sig] + headers;
    SurvivesTransport(data, wire, rest);
    PutAbove(sig, headers, body);
    var after := Arrives(all, body);
    LinesOnOne(all);
    HeadAndBody(HeaderLines(all), after);
  }

  lemma SameLineBelow(sig: Header, headers: seq<Header>, n: string)
    requires IsToken(n) && ReadAs(sig) != Some(n)
    ensures SameLine([sig] + headers, n) <==> !Shadowed(RENDERED, headers, n)
  {
    SameLineExactlyWhen([sig] + headers, n);
    ShadowedBelow(RENDERED, sig, headers, n);
  }

  /** From the header lines of a message, below the signature's own, a verifier that joins the lines that
      go on with a field and takes the lowest field of every name in h= takes, for a name, the very line the
      signer signed exactly when the name is not shadowed; and hashes what the signer hashed where none of
      the names is. */
  lemma VerifierHashesWhatWasSigned(sig: Header, headers: seq<Header>, names: seq<string>)
    requires forall n :: n in names ==> IsToken(n) && ReadAs(sig) != Some(n)
    ensures var listed := Listed(name => LastNamed(headers, name), names);
            && (forall n :: n in names ==> (SameLine([sig] + headers, n) <==> !Shadowed(RENDERED, headers, n)))
            && ((forall n :: n in names ==> !Shadowed(RENDERED, headers, n)) ==>
                  Covered(name => Found(HeaderLines([sig] + headers), name), CanonHeader, listed) ==
                  Covered(name => LastNamed(headers, name), CanonHeader, names))
  {
    forall n | n in names ensures SameLine([sig] + headers, n) <==> !Shadowed(RENDERED, headers, n) {
      SameLineBelow(sig, headers, n);
    }
    ListedCover(name => LastNamed(headers, name), CanonHeader, names);
    if forall n :: n in names ==> !Shadowed(RENDERED, headers, n) {
      forall n | n in Listed(name => LastNamed(headers, name), names) ensures n in names {
        ListedAmong(name => LastNamed(headers, name), names, n);
      }
      SameCover(sig, headers, Listed(name => LastNamed(headers, name), names));
    }
  }

  lemma ReadLength(h: Header)
    requires ':' !in h.name && h.name != "" && !IsWsp(h.name[|h.name| - 1])
    ensures ReadAs(h).Some? ==> |ReadAs(h).value| == |h.name|
  {
    FieldOfPlain(h.name);
    TrimEndNothing(h.name);
  }

  /** The header names h= may list. */
  predicate MayList(n: string) {
    n in SIGNED
  }

  predicate AllLetters(n: string) {
    forall i :: 0 <= i < |n| ==> 'a' <= n[i] <= 'z' || n[i] == '-'
  }

  lemma ListedLetters(n: string)
    requires MayList(n)
    ensures AllLetters(n) && 0 < |n| <= 12
  {
  }

  /** The signature's own header is read as none of the names h= may list. */
  lemma SignatureApart(tag: string, n: string)
    requires MayList(n)
    ensures ReadAs(Header("DKIM-Signature", tag)) != Some(n)
  {
    ListedLetters(n);
    ReadLength(Header("DKIM-Signature", tag));
  }

  // ---------------------------------------------------------------- headers a caller adds

  /** The header names a caller may not use. */
  predicate IsReserved(n: string) {
    MayList(n) || n in ["content-transfer-encoding", "dkim-signature", "return-path", "received"]
  }

  /** A header a caller may add. */
  predicate MayAdd(h: Header) {
    !IsReserved(Hosts.Lower(Hosts.TrimSpace(h.name)))
  }

  /** Adds the caller's headers, unless there is one that may not be added. */
  method AddExtra(may: Header -> bool, headers: seq<Header>, extra: seq<Header>) returns (all: Option<seq<Header>>)
    ensures all.Some? <==> forall j :: 0 <= j < |extra| ==> may(extra[j])
    ensures all.Some? ==> all.value == headers + extra
  {
    var out := headers;
    for i := 0 to |extra|
      invariant out == headers + extra[..i]
      invariant forall j :: 0 <= j < i ==> may(extra[j])
    {
      if !may(extra[i]) {
        return None;
      }
      out := out + [extra[i]];
    }
    assert extra[..|extra|] == extra;
    return Some(out);
  }

  lemma Letters(n: string)
    requires n != "" && AllLetters(n)
    ensures IsToken(n)
  {
  }

  lemma ListedIsToken(n: string)
    requires MayList(n)
    ensures IsToken(n)
  {
    ListedLetters(n);
    Letters(n);
  }

  /** The service's own headers in the order they are written: each of the names once, `last` at the end. */
  ghost predicate OwnHeaders(m: Manner, own: seq<Header>, names: set<string>, last: string) {
    && own != [] && m.named(own[|own| - 1]) == last
    && (forall i :: 0 <= i < |own| ==> m.named(own[i]) in names && m.read(own[i]) == Some(m.named(own[i])) && !m.continues(own[i]))
    && (forall i, j :: 0 <= i < j < |own| ==> m.named(own[i]) != m.named(own[j]))
    && (forall n :: n in names ==> exists i :: 0 <= i < |own| && m.named(own[i]) == n)
  }

  /** None of the caller's headers is read as one of the names. */
  ghost predicate NoneRead(m: Manner, extra: seq<Header>, names: set<string>) {
    forall i :: 0 <= i < |extra| ==> m.read(extra[i]).None? || m.read(extra[i]).value !in names
  }

  lemma OwnNotShadowed(m: Manner, own: seq<Header>, extra: seq<Header>, names: set<string>, last: string, n: string)
    requires OwnHeaders(m, own, names, last) && NoneRead(m, extra, names) && n in names
    requires extra != [] ==> !m.continues(extra[0])
    ensures !Shadowed(m, own + extra, n)
  {
    var all := own + extra;
    forall i | |own| <= i < |all| ensures m.read(all[i]) != Some(n) {
      assert all[i] == extra[i - |own|];
    }
    forall i: nat | i < |own| ensures !GoesOn(m, all, i) {
      assert i + 1 < |all| ==> all[i + 1] == if i + 1 < |own| then own[i + 1] else extra[0];
    }
  }

  lemma ExtraShadows(m: Manner, own: seq<Header>, extra: seq<Header>, k: nat, n: string)
    requires k < |extra| && m.read(extra[k]) == Some(n) && forall j :: 0 <= j < |extra| ==> m.named(extra[j]) != n
    ensures Shadowed(m, own + extra, n)
  {
    var all := own + extra;
    assert all[|own| + k] == extra[k];
    var low := SomeLowest(m, all, |own| + k, n);
    assert all[low] == extra[low - |own|];
  }

  lemma FoldShadows(m: Manner, own: seq<Header>, extra: seq<Header>, names: set<string>, last: string)
    requires OwnHeaders(m, own, names, last) && NoneRead(m, extra, names) && extra != [] && m.continues(extra[0])
    ensures last in names && Shadowed(m, own + extra, last)
  {
    var all, i := own + extra, |own| - 1;
    forall j | i < j < |all| ensures m.read(all[j]) != Some(last) {
      assert all[j] == extra[j - |own|];
    }
    assert LowestRead(m, all, |all|, last, Some(i)) && GoesOn(m, all, i);
  }

  /** With a caller's headers, none of them named as the service's own, below those: every listed name means
      one line to signer and verifier exactly when none of the caller's is read as a listed name and the
      first is not read as part of the line above it. */
  lemma ExtraShadowsExactlyWhen(m: Manner, own: seq<Header>, extra: seq<Header>, names: set<string>, last: string)
    requires OwnHeaders(m, own, names, last) && forall j :: 0 <= j < |extra| ==> m.named(extra[j]) !in names
    ensures (forall n :: n in names ==> !Shadowed(m, own + extra, n))
            <==> NoneRead(m, extra, names) && (extra != [] ==> !m.continues(extra[0]))
  {
    if !NoneRead(m, extra, names) {
      var k :| 0 <= k < |extra| && m.read(extra[k]).Some? && m.read(extra[k]).value in names;
      ExtraShadows(m, own, extra, k, m.read(extra[k]).value);
    } else if extra != [] && m.continues(extra[0]) {
      FoldShadows(m, own, extra, names, last);
    } else {
      forall n | n in names ensures !Shadowed(m, own + extra, n) {
        OwnNotShadowed(m, own, extra, names, last, n);
      }
    }
  }

  /** A header a caller may add has none of the names h= may list. */
  lemma AddedUnlisted(h: Header, n: string)
    requires MayAdd(h) && MayList(n)
    ensures NameOf(h) != n
  {
    if NameOf(h) == n {
      ListedIsToken(n);
      NamedSolidly(h.name, n);
      SolidIsTrimmed(h.name);
    }
  }

  /** The headers the service writes itself, by name. */
  ghost predicate ServiceHeaders(own: seq<Header>) {
    |own| == |SIGNED| && forall i :: 0 <= i < |own| ==> NameOf(own[i]) == SIGNED[i]
  }

  lemma SignedDiffer(i: nat, j: nat)
    requires i < j < |SIGNED|
    ensures SIGNED[i] != SIGNED[j]
  {
  }

  lemma ServiceIsOwn(own: seq<Header>, names: set<string>)
    requires ServiceHeaders(own) && forall n :: n in names <==> MayList(n)
    ensures OwnHeaders(RENDERED, own, names, SIGNED[6])
  {
    forall i | 0 <= i < |own| ensures NameOf(own[i]) in names && ReadAs(own[i]) == Some(NameOf(own[i])) && !Continues(own[i]) {
      ListedIsToken(SIGNED[i]);
      NamedPlainly(own[i].name, SIGNED[i]);
    }
    forall i, j | 0 <= i < j < |own| ensures NameOf(own[i]) != NameOf(own[j]) {
      SignedDiffer(i, j);
    }
    forall n | n in names ensures exists i :: 0 <= i < |own| && NameOf(own[i]) == n {
      var i :| 0 <= i < |SIGNED| && SIGNED[i] == n;
      assert NameOf(own[i]) == n;
    }
  }

  lemma NoneListed(h: Header, names: set<string>)
    requires MayAdd(h) && forall n :: n in names <==> MayList(n)
    ensures NameOf(h) !in names
  {
    if NameOf(h) in names {
      AddedUnlisted(h, NameOf(h));
    }
  }

  /** Of a message as the service builds and signs it: for every name h= may list, the verifier takes the very
      line that was signed, exactly when none of the headers the caller added is read as such a name and
      the first of them is not read as part of the line above it. */
  lemma EveryLineSignedExactlyWhen(tag: string, own: seq<Header>, extra: seq<Header>, names: set<string>)
    requires ServiceHeaders(own) && forall j :: 0 <= j < |extra| ==> MayAdd(extra[j])
    requires forall n :: n in names <==> MayList(n)
    ensures (forall n :: n in names ==> SameLine([Header("DKIM-Signature", tag)] + (own + extra), n))
            <==> NoneRead(RENDERED, extra, names) && (extra != [] ==> !Continues(extra[0]))
  {
    var sig := Header("DKIM-Signature", tag);
    forall n | n in names ensures SameLine([sig] + (own + extra), n) <==> !Shadowed(RENDERED, own + extra, n) {
      ListedIsToken(n);
      SignatureApart(tag, n);
      SameLineBelow(sig, own + extra, n);
    }
    forall j | 0 <= j < |extra| ensures NameOf(extra[j]) !in names {
      NoneListed(extra[j], names);
    }
    ServiceIsOwn(own, names);
    ExtraShadowsExactlyWhen(RENDERED, own, extra, names, SIGNED[6]);
  }

  // ---------------------------------------------------------------- a header that is read as another

  lemma {:induction false} TrimLeftKeeps(s: string, c: char)
    requires c in s && !Hosts.IsSpace(c)
    ensures c in Hosts.TrimLeft(s)
  {
    if Hosts.IsSpace(s[0]) {
      assert s == [s[0]] + s[1..];
      TrimLeftKeeps(s[1..], c);
    }
  }

  lemma {:induction false} TrimRightKeeps(s: string, c: char)
    requires c in s && !Hosts.IsSpace(c)
    ensures c in Hosts.TrimRight(s)
  {
    if Hosts.IsSpace(s[|s| - 1]) {
      assert s == s[..|s| - 1] + [s[|s| - 1]];
      TrimRightKeeps(s[..|s| - 1], c);
    }
  }

  lemma Colonless(n: string)
    requires ':' in n
    ensures !IsReserved(n)
  {
  }

  /** A name with a colon in it is none of the reserved ones. */
  lemma ColonMayAdd(h: Header)
    requires ':' in h.name
    ensures MayAdd(h)
  {
    TrimLeftKeeps(h.name, ':');
    TrimRightKeeps(Hosts.TrimLeft(h.name), ':');
    var t := Hosts.TrimSpace(h.name);
    var i :| 0 <= i < |t| && t[i] == ':';
    assert Hosts.Lower(t)[i] == ':';
    Colonless(Hosts.Lower(t));
  }

  lemma {:induction false} TrimsAlike(s: string)
    requires TrimEnd(s) != "" && !Hosts.IsSpace(TrimEnd(s)[|TrimEnd(s)| - 1])
    ensures Hosts.TrimRight(s) == TrimEnd(s) && s[0] == TrimEnd(s)[0]
  {
    if IsWsp(s[|s| - 1]) {
      TrimsAlike(s[..|s| - 1]);
    }
  }

  lemma ReadAsTrimmed(h: Header, n: string)
    requires ':' !in h.name && IsToken(n) && ReadAs(h) == Some(n)
    ensures Hosts.Lower(Hosts.TrimSpace(h.name)) == n
  {
    FieldOfPlain(h.name);
    NamedSolidly(TrimEnd(h.name), n);
    TrimsAlike(h.name);
    assert Hosts.TrimLeft(h.name) == h.name;
  }

  /** A header a caller may add that is read as a listed name has a colon in its name. */
  lemma ReadTakesColon(h: Header, n: string)
    requires MayAdd(h) && MayList(n) && ReadAs(h) == Some(n)
    ensures ':' in h.name
  {
    if ':' !in h.name {
      ListedIsToken(n);
      ReadAsTrimmed(h, n);
    }
  }

  lemma FirstKept(c: char, v: string)
    requires !IsWsp(c) && c != '\r' && c != '\n'
    ensures CanonValue([c] + v) != "" && CanonValue([c] + v)[0] == c
  {
    var s := [c] + v;
    assert s[1..] == v;
    assert Unfold(s)[0] == c;
    WrittenIsCanon(Unfold(s));
  }

  lemma ColonKey(name: string, n: string, more: string)
    requires IsToken(n) && name == n + ":" + more
    ensures KeyOf(name) == n && !Folds(name)
  {
    FieldOfLine(n, more);
    assert n[|n| - 1] in n && n[0] in n && name[0] == n[0];
    TrimEndNothing(n);
  }

  /** A header with `n` and a colon at the start of its name may be added, and is read as `n` though it is not
      named so. */
  lemma ColonReads(h: Header, n: string, more: string)
    requires IsToken(n) && h.name == n + ":" + more
    ensures MayAdd(h) && ReadAs(h) == Some(n) && NameOf(h) != n
  {
    assert ':' in h.name;
    ColonMayAdd(h);
    ColonKey(h.name, n, more);
    assert |NameOf(h)| == |h.name| > |n|;
  }

  lemma TwoShadow(m: Manner, own: Header, h: Header, n: string)
    requires m.read(h) == Some(n) && m.named(h) != n
    ensures Shadowed(m, [own, h], n)
  {
    assert LowestRead(m, [own, h], 2, n, Some(1));
  }

  lemma ColonSigned(own: Header, h: Header, n: string)
    requires NameOf(own) == n && NameOf(h) != n
    ensures LastNamed([own, h], n) == Some(own)
  {
    assert [own, h][..1] == [own];
  }

  lemma ColonFound(own: Header, h: Header, n: string, more: string)
    requires IsToken(n) && h.name == n + ":" + more && ReadAs(h) == Some(n)
    ensures Found(HeaderLines([own, h]), n) == Some(Header(n, more + ": " + h.value))
  {
    WholeKey([own, h], 1);
    assert Lowest(HeaderLines([own, h]), 2, n) == Some(1);
    assert HeaderLine(h) == n + ":" + (more + ": " + h.value);
    FieldOfLine(n, more + ": " + h.value);
  }

  /** Below a header named `n`: the signer signs that one, the verifier takes the other. "From" and "from:x" are
      such a pair. */
  lemma ColonShadows(own: Header, h: Header, n: string, more: string)
    requires IsToken(n) && NameOf(own) == n && h.name == n + ":" + more
    ensures Shadowed(RENDERED, [own, h], n) && LastNamed([own, h], n) == Some(own)
    ensures Found(HeaderLines([own, h]), n) == Some(Header(n, more + ": " + h.value))
  {
    ColonReads(h, n, more);
    TwoShadow(RENDERED, own, h, n);
    ColonSigned(own, h, n);
    ColonFound(own, h, n, more);
  }

  lemma Follows(n: string, v: string, c: char)
    requires v != "" && v[0] == c
    ensures var t := n + ":" + v + CRLF; |t| > |n| + 1 && t[|n| + 1] == c
  {
  }

  lemma CanonBegins(h: Header, n: string, c: char, a: string)
    requires IsToken(n) && NameOf(h) == n && h.value == [c] + a && !IsWsp(c) && c != '\r' && c != '\n'
    ensures |CanonHeader(h)| > |n| + 1 && CanonHeader(h)[|n| + 1] == c
  {
    NamedSolidly(h.name, n);
    SolidIsTrimmed(h.name);
    FirstKept(c, a);
    Follows(n, CanonValue(h.value), c);
  }

  lemma OneCovered<T>(last: string -> Option<T>, text: T -> string, n: string, h: T)
    requires last(n) == Some(h)
    ensures Covered(last, text, [n]) == text(h)
  {
    assert Covered(last, text, [n][1..]) == "";
  }

  /** Where the two values begin differently, signer and verifier hash different texts. */
  lemma ColonDiffers(own: Header, h: Header, n: string, c: char, a: string, x: char, more: string)
    requires IsToken(n) && NameOf(own) == n && h.name == n + ":" + ([x] + more) && own.value == [c] + a
    requires !IsWsp(c) && c != '\r' && c != '\n' && !IsWsp(x) && x != '\r' && x != '\n' && c != x
    ensures Covered(name => Found(HeaderLines([own, h]), name), CanonHeader, [n]) !=
            Covered(name => LastNamed([own, h], name), CanonHeader, [n])
  {
    ColonShadows(own, h, n, [x] + more);
    var taken := Header(n, [x] + more + ": " + h.value);
    assert taken.value == [x] + (more + ": " + h.value);
    CanonBegins(own, n, c, a);
    CanonBegins(taken, n, x, more + ": " + h.value);
    OneCovered(name => Found(HeaderLines([own, h]), name), CanonHeader, n, taken);
    OneCovered(name => LastNamed([own, h], name), CanonHeader, n, own);
  }
}
