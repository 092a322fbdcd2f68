/** A buffered reader over what a connection will deliver. A byte is a char. */
module Bufio {

  /** What was read and what is left, or nothing because the input ended first. */
  datatype Read<+T> = Starved | Took(value: T, rest: string)

  /** What was read, with what was read before it. */
  function Before(pre: string, r: Read<string>): Read<string> {
    match r case Starved => Starved case Took(v, rest) => Took(pre + v, rest)
  }

  lemma BeforeBefore(a: string, b: string, r: Read<string>)
    ensures Before(a, Before(b, r)) == Before(a + b, r) && Before([], r) == r
  {
    if r.Took? {
      assert a + (b + r.value) == a + b + r.value;
      assert [] + r.value == r.value;
    }
  }

  /** Up to and including the next LF. */
  function Line(s: string): (r: Read<string>)
    ensures r.Took? ==> |r.rest| < |s| && |r.value| + |r.rest| == |s| && r.value != ""
  {
    if s == "" then Starved
    else if s[0] == '\n' then Took("\n", s[1..])
    else Before([s[0]], Line(s[1..]))
  }

  /** Without the CRs and LFs at the end. */
  function TrimEnds(s: string): (t: string)
    ensures t <= s
  {
    if s != "" && (s[|s| - 1] == '\r' || s[|s| - 1] == '\n') then TrimEnds(s[..|s| - 1]) else s
  }

  lemma {:induction false} LineOf(l: string, rest: string)
    requires '\n' !in l
    ensures Line(l + "\n" + rest) == Took(l + "\n", rest)
  {
    var s := l + "\n" + rest;
    if l == "" {
      assert s[1..] == rest;
      assert l + "\n" == "\n";
    } else {
      LineOf(l[1..], rest);
      assert s[1..] == l[1..] + "\n" + rest;
      assert l + "\n" == [l[0]] + (l[1..] + "\n");
    }
  }

  /** A line sent with CRLF is read as sent. */
  lemma LineSent(l: string, rest: string)
    requires '\n' !in l && l != "" && l[|l| - 1] != '\r'
    ensures Line(l + "\r\n" + rest) == Took(l + "\r\n", rest) && TrimEnds(l + "\r\n") == l
  {
    var m := l + "\r";
    assert l + "\r\n" + rest == m + "\n" + rest;
    LineOf(m, rest);
    assert m + "\n" == l + "\r\n";
    assert (l + "\r\n")[..|l| + 1] == m;
    assert m[..|l|] == l;
    assert TrimEnds(l) == l;
  }

  lemma {:induction false} LineLonger(s: string, t: string)
    requires Line(s).Took?
    ensures Line(s + t) == Took(Line(s).value, Line(s).rest + t)
  {
    assert (s + t)[1..] == s[1..] + t;
    if s[0] != '\n' {
      LineLonger(s[1..], t);
    }
  }

  class Reader {
    var rest: string

    constructor (input: string)
      ensures rest == input
    {
      rest := input;
    }

    method ReadString() returns (r: Read<string>)
      modifies this
      ensures r == Line(old(rest)) && (r.Took? ==> rest == r.rest)
    {
      var i := 0;
      BeforeBefore([], [], Line(rest));
      while i < |rest| && rest[i] != '\n'
        invariant i <= |rest| && rest == old(rest)
        invariant Line(rest) == Before(rest[..i], Line(rest[i..]))
      {
        assert rest[i..][1..] == rest[i + 1..];
        BeforeBefore(rest[..i], [rest[i]], Line(rest[i + 1..]));
        assert rest[..i] + [rest[i]] == rest[..i + 1];
        i := i + 1;
      }
      if i == |rest| {
        return Starved;
      }
      assert rest[i..][1..] == rest[i + 1..];
      var line := rest[..i + 1];
      assert line == rest[..i] + "\n";
      rest := rest[i + 1..];
      return Took(line, rest);
    }
  }
}
