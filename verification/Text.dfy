/** Lines and line ends. */
module Text {
  const CRLF: string := "\r\n"

  predicate OneLine(s: string) {
    '\n' !in s
  }

  ghost predicate AllLines(ls: seq<string>) {
    forall i :: 0 <= i < |ls| ==> OneLine(ls[i])
  }

  predicate StartsCRLF(s: string) {
    |s| >= 2 && s[0] == '\r' && s[1] == '\n'
  }

  /** Every CRLF becomes a bare LF. */
  function ToLF(s: string): string {
    if s == "" then "" else if StartsCRLF(s) then "\n" + ToLF(s[2..]) else [s[0]] + ToLF(s[1..])
  }

  /** Every LF becomes a CRLF. */
  function ToCRLF(s: string): string {
    if s == "" then "" else (if s[0] == '\n' then CRLF else [s[0]]) + ToCRLF(s[1..])
  }

  /** The pieces between the LFs. */
  function Split(s: string): (ls: seq<string>)
    ensures |ls| >= 1 && AllLines(ls)
  {
    if s == "" then [""]
    else
      var rest := Split(s[1..]);
      if s[0] == '\n' then [""] + rest else [[s[0]] + rest[0]] + rest[1..]
  }

  /** The lines joined by CRLF. */
  function Join(ls: seq<string>): string
    requires |ls| >= 1
  {
    if |ls| == 1 then ls[0] else ls[0] + CRLF + Join(ls[1..])
  }

  /** The lines, each ended by CRLF. */
  function Ended(ls: seq<string>): string {
    if ls == [] then "" else ls[0] + CRLF + Ended(ls[1..])
  }

  function Lines(s: string): (ls: seq<string>)
    ensures |ls| >= 1 && AllLines(ls)
  {
    Split(ToLF(s))
  }

  lemma Assoc<T>(a: seq<T>, b: seq<T>, c: seq<T>, d: seq<T>)
    ensures a + b + c + d == a + b + (c + d)
    ensures a + b + c + d == a + (b + c + d)
  {
  }

  lemma {:induction false} EndedConcat(a: seq<string>, b: seq<string>)
    ensures Ended(a + b) == Ended(a) + Ended(b)
  {
    if a == [] {
      assert a + b == b;
    } else {
      EndedConcat(a[1..], b);
      assert (a + b)[1..] == a[1..] + b;
      Assoc(a[0], CRLF, Ended(a[1..]), Ended(b));
    }
  }

  lemma {:induction false} JoinEnds(ls: seq<string>)
    requires |ls| >= 1
    ensures Join(ls) == Ended(ls[..|ls| - 1]) + ls[|ls| - 1]
    ensures Join(ls) + CRLF == Ended(ls)
  {
    if |ls| == 1 {
      assert Ended(ls[1..]) == "";
    } else {
      JoinEnds(ls[1..]);
      assert ls[..|ls| - 1][1..] == ls[1..][..|ls| - 2];
      assert Join(ls) + CRLF == ls[0] + CRLF + (Join(ls[1..]) + CRLF);
    }
  }

  lemma JoinAnother(rest: seq<string>)
    requires |rest| >= 1
    ensures Join([""] + rest) == CRLF + Join(rest)
  {
    assert ([""] + rest)[1..] == rest;
  }

  lemma JoinLonger(c: char, rest: seq<string>)
    requires |rest| >= 1
    ensures Join([[c] + rest[0]] + rest[1..]) == [c] + Join(rest)
  {
    var longer := [[c] + rest[0]] + rest[1..];
    assert longer[1..] == rest[1..];
    if |rest| > 1 {
      Assoc([c], rest[0], CRLF, Join(rest[1..]));
    }
  }

  /** Replacing every LF by CRLF is splitting at the LFs and joining by CRLF. */
  lemma {:induction false} JoinSplit(s: string)
    ensures Join(Split(s)) == ToCRLF(s)
  {
    if s == "" {
    } else {
      JoinSplit(s[1..]);
      JoinAnother(Split(s[1..]));
      JoinLonger(s[0], Split(s[1..]));
    }
  }

  lemma {:induction false} ToLFLine(l: string, rest: string)
    requires OneLine(l)
    ensures ToLF(l + CRLF + rest) == l + "\n" + ToLF(rest)
  {
    var s := l + CRLF + rest;
    if l == "" {
      assert s[2..] == rest;
    } else {
      ToLFLine(l[1..], rest);
      assert s[1..] == l[1..] + CRLF + rest;
      assert |l| > 1 ==> s[1] == l[1];
      assert l == [l[0]] + l[1..];
    }
  }

  lemma {:induction false} SplitLine(l: string, rest: string)
    requires OneLine(l)
    ensures Split(l + "\n" + rest) == [l] + Split(rest)
  {
    var s := l + "\n" + rest;
    if l == "" {
      assert s[1..] == rest;
    } else {
      SplitLine(l[1..], rest);
      assert s[1..] == l[1..] + "\n" + rest;
      assert l == [l[0]] + l[1..];
    }
  }

  lemma LinesOfLine(l: string, rest: string)
    requires OneLine(l)
    ensures Lines(l + CRLF + rest) == [l] + Lines(rest)
  {
    ToLFLine(l, rest);
    SplitLine(l, ToLF(rest));
  }

  lemma FirstApart<T>(s: seq<T>, t: seq<T>)
    requires s != []
    ensures s + t == [s[0]] + (s[1..] + t)
  {
  }

  lemma EndedFirst(ls: seq<string>, rest: string)
    requires ls != []
    ensures Ended(ls) + rest == ls[0] + CRLF + (Ended(ls[1..]) + rest)
  {
    Assoc(ls[0], CRLF, Ended(ls[1..]), rest);
  }

  /** Reading back ended lines gives the lines, and whatever followed them. */
  lemma {:induction false} LinesOfEnded(ls: seq<string>, rest: string)
    requires AllLines(ls)
    ensures Lines(Ended(ls) + rest) == ls + Lines(rest)
  {
    if ls == [] {
      assert Ended(ls) + rest == rest;
    } else {
      LinesOfEnded(ls[1..], rest);
      EndedFirst(ls, rest);
      LinesOfLine(ls[0], Ended(ls[1..]) + rest);
      FirstApart(ls, Lines(rest));
    }
  }
}
