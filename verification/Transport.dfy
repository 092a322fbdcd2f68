/** Sending message data over SMTP: the dot-stuffing of the sender, and the receiver of section 4.5.2 of
    RFC 5321 that undoes it. */
module Transport {
  import opened Text
  import opened Bufio

  // ---------------------------------------------------------------- the sender

  function StuffLine(line: string): string {
    if line != "" && line[0] == '.' then "." + line else line
  }

  function Stuffed(ls: seq<string>): seq<string> {
    seq(|ls|, i requires 0 <= i < |ls| => StuffLine(ls[i]))
  }

  /** Without an empty last line. */
  function Ending(ls: seq<string>): (r: seq<string>)
    requires |ls| >= 1 && AllLines(ls)
    ensures |r| >= 1 && AllLines(r)
  {
    if |ls| >= 2 && ls[|ls| - 1] == "" then ls[..|ls| - 1] else ls
  }

  /** The lines of the data, as the wire ends each: what follows a final line end is no line. */
  function WireLines(data: string): (ls: seq<string>)
    ensures |ls| >= 1 && AllLines(ls)
  {
    Ending(Lines(data))
  }

  predicate EndsCRLF(s: string) {
    |s| >= 2 && s[|s| - 2] == '\r' && s[|s| - 1] == '\n'
  }

  lemma EndsWhenLastIsEmpty(ls: seq<string>)
    requires |ls| >= 1 && AllLines(ls)
    ensures EndsCRLF(Join(ls)) <==> |ls| >= 2 && ls[|ls| - 1] == ""
  {
    JoinEnds(ls);
    var front, last := ls[..|ls| - 1], ls[|ls| - 1];
    if last != "" {
      assert Join(ls)[|Join(ls)| - 1] == last[|last| - 1];
    } else if |ls| >= 2 {
      JoinEnds(front);
      assert Join(ls) == Join(front) + CRLF;
    }
  }

  /** Joining lines by CRLF, and ending the last unless it is empty, ends every line of the wire. */
  lemma EndedAsWire(ls: seq<string>)
    requires |ls| >= 1 && AllLines(ls)
    ensures EndsCRLF(Join(ls)) ==> |ls| >= 2 && ls[|ls| - 1] == "" && Join(ls) == Ended(ls[..|ls| - 1])
    ensures !EndsCRLF(Join(ls)) ==> !(|ls| >= 2 && ls[|ls| - 1] == "") && Join(ls) + CRLF == Ended(ls)
  {
    EndsWhenLastIsEmpty(ls);
    JoinEnds(ls);
  }

  method StuffAll(given: seq<string>) returns (lines: seq<string>)
    ensures lines == Stuffed(given)
  {
    lines := given;
    for i := 0 to |lines|
      invariant |lines| == |given|
      invariant forall k :: 0 <= k < |given| ==> lines[k] == if k < i then StuffLine(given[k]) else given[k]
    {
      if lines[i] != "" && lines[i][0] == '.' {
        lines := lines[i := "." + lines[i]];
      }
    }
  }

  method DotStuff(data: string) returns (out: string)
    ensures out == Ended(Stuffed(WireLines(data))) + ".\r\n"
  {
    var text := ToLF(data);
    var split := Split(text);
    var lines := StuffAll(split);
    EndedAsWire(lines);
    out := Join(lines);
    if !EndsCRLF(out) {
      out := out + CRLF;
    } else {
      assert lines[..|lines| - 1] == Stuffed(split[..|split| - 1]);
    }
    out := out + ".\r\n";
  }

  // ---------------------------------------------------------------- the receiver

  /** Up to the next CRLF. */
  function NextLine(s: string): (r: Read<string>)
    ensures r.Took? ==> |r.rest| < |s|
  {
    if |s| < 2 then Starved
    else if StartsCRLF(s) then Took("", s[2..])
    else
      match NextLine(s[1..])
      case Starved => Starved
      case Took(l, rest) => Took([s[0]] + l, rest)
  }

  /** Lines until the first that is a lone dot; a leading dot is removed from any other. */
  function Receive(s: string): Read<seq<string>>
    decreases |s|
  {
    match NextLine(s)
    case Starved => Starved
    case Took(l, rest) =>
      if l == "." then Took([], rest)
      else
        match Receive(rest)
        case Starved => Starved
        case Took(ls, after) => Took([if l != "" && l[0] == '.' then l[1..] else l] + ls, after)
  }

  lemma {:induction false} ReadLine(l: string, rest: string)
    requires OneLine(l)
    ensures NextLine(l + CRLF + rest) == Took(l, rest)
  {
    var s := l + CRLF + rest;
    if l == "" {
      assert s[2..] == rest;
    } else {
      ReadLine(l[1..], rest);
      assert s[1..] == l[1..] + CRLF + rest;
      assert |l| > 1 ==> s[1] == l[1];
      assert l == [l[0]] + l[1..];
    }
  }

  lemma {:induction false} ReceiveStuffed(ls: seq<string>, rest: string)
    requires AllLines(ls)
    ensures Receive(Ended(Stuffed(ls)) + ".\r\n" + rest) == Took(ls, rest)
  {
    if ls == [] {
      assert Ended(Stuffed(ls)) + ".\r\n" + rest == "." + CRLF + rest;
      ReadLine(".", rest);
    } else {
      var l, tail := StuffLine(ls[0]), Ended(Stuffed(ls[1..])) + ".\r\n" + rest;
      assert Stuffed(ls)[1..] == Stuffed(ls[1..]);
      assert Ended(Stuffed(ls)) + ".\r\n" + rest == l + CRLF + tail;
      ReadLine(l, tail);
      ReceiveStuffed(ls[1..], rest);
      assert ls == [ls[0]] + ls[1..];
    }
  }

  /** With a CRLF at its end. */
  function Closed(s: string): string {
    if EndsCRLF(s) then s else s + CRLF
  }

  /** The data with every line end a CRLF, and a CRLF at its end. */
  function Normalised(data: string): string {
    Closed(ToCRLF(ToLF(data)))
  }

  lemma EndedIsClosed(ls: seq<string>)
    requires |ls| >= 1 && AllLines(ls)
    ensures Ended(Ending(ls)) == Closed(Join(ls))
  {
    EndedAsWire(ls);
  }

  lemma WireIsNormal(data: string)
    ensures Ended(WireLines(data)) == Normalised(data)
  {
    JoinSplit(ToLF(data));
    EndedIsClosed(Lines(data));
  }

  /** Whatever the data and whatever the sender says next, the receiver gets exactly the data with its
      line ends normalised, stops at the terminator the sender appended and at none before it, and is
      left with exactly what the sender says next. */
  lemma SurvivesTransport(data: string, wire: string, rest: string)
    requires wire == Ended(Stuffed(WireLines(data))) + ".\r\n"
    ensures Receive(wire + rest) == Took(WireLines(data), rest)
    ensures Ended(WireLines(data)) == Normalised(data)
  {
    ReceiveStuffed(WireLines(data), rest);
    WireIsNormal(data);
  }
}
