/** Reading SMTP replies, continuation lines included, off a connection: section 4.2 of RFC 5321. */
module Framing {
  import opened Wrappers
  import opened Bufio
  import Text

  const MAX_REPLY: nat := 4096

  /** The code leading a reply line. */
  function ReplyCode(line: string): (r: Option<nat>)
    ensures r.Some? ==> 200 <= r.value <= 599
  {
    if |line| < 3 then None
    else if line[0] < '2' || line[0] > '5' || line[1] < '0' || line[1] > '9' || line[2] < '0' || line[2] > '9' then None
    else Some((line[0] - '0') as nat * 100 + (line[1] - '0') as nat * 10 + (line[2] - '0') as nat)
  }

  /** A code as three digits. */
  function ThreeDigits(code: nat): string
    requires code < 1000
  {
    ['0' + (code / 100) as char, '0' + (code / 10 % 10) as char, '0' + (code % 10) as char]
  }

  /** Every code of the protocol is read back from the line it leads, and no other is read at all. */
  lemma ReadsCode(code: nat, text: string)
    requires code < 1000
    ensures ReplyCode(ThreeDigits(code) + text) == if 200 <= code <= 599 then Some(code) else None
  {
    var line := ThreeDigits(code) + text;
    assert line[0] == '0' + (code / 100) as char;
    assert line[1] == '0' + (code / 10 % 10) as char;
    assert line[2] == '0' + (code % 10) as char;
  }

  /** The text kept once the line has been read: nothing is added to text that is long already. */
  function Keep(text: string, line: string): string {
    if |text| >= MAX_REPLY then text else if text == "" then line else text + "\n" + line
  }

  predicate Continues(line: string) {
    |line| > 3 && line[3] == '-'
  }

  datatype Outcome = Ended | Garbled(line: string) | Reply(code: nat, text: string, rest: string)

  /** What reading a reply comes to, some of its text having been kept. */
  function ReadOn(s: string, text: string): (r: Outcome)
    ensures r.Reply? ==> |r.rest| < |s| && 200 <= r.code <= 599
    decreases |s|
  {
    match Line(s)
    case Starved => Ended
    case Took(raw, rest) =>
      var line := TrimEnds(raw);
      match ReplyCode(line)
      case None => Garbled(line)
      case Some(code) =>
        if Continues(line) then ReadOn(rest, Keep(text, line)) else Reply(code, Keep(text, line), rest)
  }

  method ReadReply(r: Reader) returns (out: Outcome)
    modifies r
    ensures out == ReadOn(old(r.rest), "") && (out.Reply? ==> r.rest == out.rest)
  {
    var text := "";
    while true
      invariant |r.rest| <= |old(r.rest)|
      invariant ReadOn(r.rest, text) == ReadOn(old(r.rest), "")
      decreases |r.rest|
    {
      var read := r.ReadString();
      if read.Starved? {
        return Ended;
      }
      var line := TrimEnds(read.value);
      if |line| < 3 {
        return Garbled(line);
      }
      var code := ReplyCode(line);
      if code.None? {
        return Garbled(line);
      }
      ghost var before := text;
      if |text| < MAX_REPLY {
        if |text| > 0 {
          text := text + "\n";
        }
        text := text + line;
      }
      assert text == Keep(before, line);
      if |line| > 3 && line[3] == '-' {
        continue;
      }
      return Reply(code.value, text, r.rest);
    }
  }

  // ---------------------------------------------------------------- well-formed replies

  /** A reply line as sent, without its line end. */
  predicate IsLine(line: string) {
    ReplyCode(line).Some? && '\n' !in line && line[|line| - 1] != '\r'
  }

  /** A reply: any number of continuation lines, and a last line that is none. */
  ghost predicate WellFormed(lines: seq<string>) {
    && |lines| >= 1
    && (forall i :: 0 <= i < |lines| ==> IsLine(lines[i]))
    && (forall i :: 0 <= i < |lines| - 1 ==> Continues(lines[i]))
    && !Continues(lines[|lines| - 1])
  }

  function CodeOf(lines: seq<string>): nat {
    if lines == [] then 0 else match ReplyCode(lines[|lines| - 1]) case None => 0 case Some(code) => code
  }

  function KeepAll(text: string, lines: seq<string>): string
    decreases lines
  {
    if lines == [] then text else KeepAll(Keep(text, lines[0]), lines[1..])
  }

  /** One reply is read to its end, however long, its code is that of its last line, and exactly what was
      sent after it is left. */
  lemma {:induction false} ReadsOne(lines: seq<string>, text: string, rest: string)
    requires WellFormed(lines)
    ensures ReplyCode(lines[|lines| - 1]) == Some(CodeOf(lines))
    ensures ReadOn(Text.Ended(lines) + rest, text) == Reply(CodeOf(lines), KeepAll(text, lines), rest)
    decreases lines
  {
    var line, more := lines[0], lines[1..];
    var tail := Text.Ended(more) + rest;
    assert Text.Ended(lines) + rest == line + "\r\n" + tail by {
      Text.Assoc(line, Text.CRLF, Text.Ended(more), rest);
    }
    LineSent(line, tail);
    if Continues(line) {
      assert forall i :: 0 <= i < |more| ==> more[i] == lines[i + 1];
      ReadsOne(more, Keep(text, line), rest);
    } else {
      assert more == [];
      assert tail == rest;
    }
  }

  /** The lines, one per LF. */
  function Joined(lines: seq<string>): string {
    if lines == [] then ""
    else if |lines| == 1 then lines[0]
    else Joined(lines[..|lines| - 1]) + "\n" + lines[|lines| - 1]
  }

  /** The text kept is that of the first `k` lines: all of them, or as many as it takes to reach the
      limit. */
  ghost predicate KeepsLines(lines: seq<string>, text: string, k: nat) {
    && k <= |lines| && text == Joined(lines[..k])
    && (k < |lines| ==> |text| >= MAX_REPLY)
    && (k > 0 ==> |Joined(lines[..k - 1])| < MAX_REPLY)
  }

  lemma {:induction false} KeepAllSnoc(text: string, lines: seq<string>, line: string)
    ensures KeepAll(text, lines + [line]) == Keep(KeepAll(text, lines), line)
    decreases lines
  {
    if lines == [] {
      assert ([] + [line])[1..] == [];
    } else {
      KeepAllSnoc(Keep(text, lines[0]), lines[1..], line);
      assert (lines + [line])[1..] == lines[1..] + [line];
    }
  }

  lemma JoinedNonEmpty(lines: seq<string>)
    requires forall i :: 0 <= i < |lines| ==> lines[i] != ""
    ensures Joined(lines) == "" <==> lines == []
  {
  }

  lemma {:induction false} KeptText(lines: seq<string>) returns (k: nat)
    requires forall i :: 0 <= i < |lines| ==> lines[i] != ""
    ensures KeepsLines(lines, KeepAll("", lines), k)
  {
    if lines == [] {
      return 0;
    }
    var n := |lines| - 1;
    var front, last := lines[..n], lines[n];
    k := KeptText(front);
    assert front + [last] == lines;
    KeepAllSnoc("", front, last);
    var text := KeepAll("", front);
    assert front[..k] == lines[..k];
    assert k > 0 ==> front[..k - 1] == lines[..k - 1];
    if |text| < MAX_REPLY {
      assert lines[..n + 1] == lines && lines[..n + 1][..n] == front && front[..n] == front;
      JoinedNonEmpty(front);
      k := n + 1;
    }
  }

  lemma {:induction false} JoinedGrows(lines: seq<string>, j: nat, k: nat)
    requires j <= k <= |lines| && forall i :: 0 <= i < |lines| ==> lines[i] != ""
    ensures |Joined(lines[..j])| <= |Joined(lines[..k])|
    ensures j < k ==> |Joined(lines[..j])| < |Joined(lines[..k])|
  {
    if j < k {
      JoinedGrows(lines, j, k - 1);
      assert lines[..k][..k - 1] == lines[..k - 1];
    }
  }

  lemma KeptBound(lines: seq<string>, text: string, k: nat)
    requires lines != [] && (forall i :: 0 <= i < |lines| ==> lines[i] != "") && KeepsLines(lines, text, k)
    ensures k > 0 && |text| <= MAX_REPLY + |lines[k - 1]|
    ensures text == Joined(lines) <==> |Joined(lines[..|lines| - 1])| < MAX_REPLY
  {
    var n := |lines| - 1;
    assert Joined(lines[..0]) == "";
    assert lines[..n + 1] == lines;
    assert lines[..k][..k - 1] == lines[..k - 1];
    if k <= n {
      JoinedGrows(lines, k, n);
      JoinedGrows(lines, n, n + 1);
    }
  }

  /** What a reply leaves in the log, against what it said: every line of it exactly when what precedes
      its last line is short of the limit, and never more than the limit and one line with its LF. */
  lemma KeptWhole(lines: seq<string>)
    requires WellFormed(lines)
    ensures KeepAll("", lines) == Joined(lines) <==> |Joined(lines[..|lines| - 1])| < MAX_REPLY
    ensures exists i :: 0 <= i < |lines| && |KeepAll("", lines)| <= MAX_REPLY + |lines[i]|
  {
    var k := KeptText(lines);
    KeptBound(lines, KeepAll("", lines), k);
  }

  // ---------------------------------------------------------------- a whole conversation

  function Sent(replies: seq<seq<string>>): string {
    if replies == [] then "" else Text.Ended(replies[0]) + Sent(replies[1..])
  }

  /** What so many calls return, one after another; None if one of them fails. */
  function Calls(s: string, n: nat): Option<(seq<(nat, string)>, string)>
    decreases n
  {
    if n == 0 then Some(([], s))
    else
      match ReadOn(s, "")
      case Reply(code, text, rest) =>
        (match Calls(rest, n - 1)
         case None => None
         case Some((more, left)) => Some(([(code, text)] + more, left)))
      case _ => None
  }

  /** The code and the kept text of every reply. */
  function Meant(replies: seq<seq<string>>): seq<(nat, string)> {
    if replies == [] then [] else [(CodeOf(replies[0]), KeepAll("", replies[0]))] + Meant(replies[1..])
  }

  /** As many calls as replies were sent return exactly those replies, in order, and leave exactly what
      was sent after them: a long or oddly divided reply never puts the session out of step. */
  lemma {:induction false} StaysInStep(replies: seq<seq<string>>, rest: string)
    requires forall i :: 0 <= i < |replies| ==> WellFormed(replies[i])
    ensures Calls(Sent(replies) + rest, |replies|) == Some((Meant(replies), rest))
  {
    if replies == [] {
      assert Sent(replies) + rest == rest;
    } else {
      var tail := Sent(replies[1..]) + rest;
      assert Sent(replies) + rest == Text.Ended(replies[0]) + tail;
      ReadsOne(replies[0], "", tail);
      StaysInStep(replies[1..], rest);
    }
  }
}
