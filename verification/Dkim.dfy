/** Relaxed canonicalization of DKIM: sections 3.4.2 and 3.4.4 of RFC 6376, the loops that compute it,
    and what a verifier computes from the message as it arrives. */
module Dkim {
  import opened Text

  predicate IsWsp(c: char) {
    c == ' ' || c == '\t'
  }

  predicate Blank(line: string) {
    forall i :: 0 <= i < |line| ==> IsWsp(line[i])
  }

  /** Without the white space at the end. */
  function TrimEnd(line: string): string {
    if line != "" && IsWsp(line[|line| - 1]) then TrimEnd(line[..|line| - 1]) else line
  }

  /** Without the white space at the start. */
  function TrimStart(line: string): string {
    if line != "" && IsWsp(line[0]) then TrimStart(line[1..]) else line
  }

  /** Every run of white space reduced to one space. */
  function Collapse(line: string): string {
    if line == "" then ""
    else if !IsWsp(line[0]) then [line[0]] + Collapse(line[1..])
    else if |line| >= 2 && IsWsp(line[1]) then Collapse(line[1..])
    else " " + Collapse(line[1..])
  }

  /** A body line, section 3.4.4 of RFC 6376: white space at the end ignored, runs reduced. */
  function CanonLine(line: string): string {
    Collapse(TrimEnd(line))
  }

  // ---------------------------------------------------------------- the loop over one line

  /** What the loop writes for the rest of a line: a run of white space is written, as one space, only
      when something follows it. */
  function Written(line: string, space: bool): string {
    if line == "" then ""
    else if IsWsp(line[0]) then Written(line[1..], true)
    else (if space then " " else "") + [line[0]] + Written(line[1..], false)
  }

  lemma {:induction false} TrimEndCons(c: char, rest: string)
    ensures TrimEnd([c] + rest) == if IsWsp(c) && Blank(rest) then "" else [c] + TrimEnd(rest)
  {
    var line := [c] + rest;
    if rest == "" {
      assert line[..0] == "";
    } else {
      assert line[|line| - 1] == rest[|rest| - 1];
      if IsWsp(rest[|rest| - 1]) {
        var front := rest[..|rest| - 1];
        assert line[..|line| - 1] == [c] + front;
        TrimEndCons(c, front);
        assert rest == front + [rest[|rest| - 1]];
      }
    }
  }

  lemma {:induction false} TrimEndKeeps(line: string)
    requires !Blank(line)
    ensures TrimEnd(line) != "" && TrimEnd(line)[0] == line[0]
  {
    if IsWsp(line[|line| - 1]) {
      TrimEndKeeps(line[..|line| - 1]);
    }
  }

  lemma {:induction false} WrittenIsCanon(line: string)
    ensures Written(line, false) == CanonLine(line)
    ensures Written(line, true) == (if Blank(line) then "" else if IsWsp(line[0]) then CanonLine(line) else " " + CanonLine(line))
  {
    if line == "" {
    } else {
      var rest := line[1..];
      WrittenIsCanon(rest);
      assert line == [line[0]] + rest;
      TrimEndCons(line[0], rest);
      if IsWsp(line[0]) && Blank(rest) {
      } else if IsWsp(line[0]) {
        TrimEndKeeps(rest);
        assert TrimEnd(line)[1..] == TrimEnd(rest);
      } else {
        assert TrimEnd(line)[1..] == TrimEnd(rest);
      }
    }
  }

  method CanonicalizeLine(line: string) returns (out: string)
    ensures out == CanonLine(line)
  {
    out := "";
    var space := false;
    for i := 0 to |line|
      invariant out + Written(line[i..], space) == Written(line, false)
    {
      assert line[i..][1..] == line[i + 1..];
      if IsWsp(line[i]) {
        space := true;
        continue;
      }
      if space {
        out := out + " ";
        space := false;
      }
      out := out + [line[i]];
    }
    WrittenIsCanon(line);
  }

  // ---------------------------------------------------------------- canonical lines

  /** White space is single spaces, none of them last. */
  ghost predicate Tidy(line: string) {
    forall i :: 0 <= i < |line| && IsWsp(line[i]) ==> line[i] == ' ' && i + 1 < |line| && !IsWsp(line[i + 1])
  }

  lemma TidyCons(c: char, line: string)
    requires Tidy(line) && !IsWsp(c)
    ensures Tidy([c] + line) && Tidy(" " + [c] + line)
  {
    var one := [c] + line;
    forall i | 0 <= i < |one| && IsWsp(one[i]) ensures one[i] == ' ' && i + 1 < |one| && !IsWsp(one[i + 1]) {
      assert one[i] == line[i - 1];
    }
    var two := " " + [c] + line;
    forall i | 0 <= i < |two| && IsWsp(two[i]) ensures two[i] == ' ' && i + 1 < |two| && !IsWsp(two[i + 1]) {
      if i > 0 {
        assert two[i] == line[i - 2];
      }
    }
  }

  lemma {:induction false} WrittenIsTidy(line: string, space: bool)
    ensures Tidy(Written(line, space))
  {
    if line == "" {
    } else {
      WrittenIsTidy(line[1..], IsWsp(line[0]));
      if !IsWsp(line[0]) {
        TidyCons(line[0], Written(line[1..], false));
        assert "" + [line[0]] + Written(line[1..], false) == [line[0]] + Written(line[1..], false);
      }
    }
  }

  lemma {:induction false} WrittenIsEmpty(line: string, space: bool)
    ensures Written(line, space) == "" <==> Blank(line)
  {
    if line == "" {
    } else {
      WrittenIsEmpty(line[1..], IsWsp(line[0]));
      assert line == [line[0]] + line[1..];
    }
  }

  lemma {:induction false} WrittenOnOneLine(line: string, space: bool)
    requires OneLine(line)
    ensures OneLine(Written(line, space))
  {
    if line == "" {
    } else {
      WrittenOnOneLine(line[1..], IsWsp(line[0]));
    }
  }

  lemma {:induction false} TidyIsWritten(line: string)
    requires Tidy(line)
    ensures Written(line, false) == line
  {
    if line == "" {
    } else {
      var rest := line[1..];
      assert forall i :: 0 <= i < |rest| ==> rest[i] == line[i + 1];
      if IsWsp(line[0]) {
        var more := rest[1..];
        assert forall i :: 0 <= i < |more| ==> more[i] == line[i + 2];
        TidyIsWritten(more);
        assert line == " " + [line[1]] + more;
      } else {
        TidyIsWritten(rest);
        assert line == [line[0]] + rest;
      }
    }
  }

  /** Canonicalizing a line twice is canonicalizing it once; nothing is left of blank lines only. */
  lemma CanonLineOnce(line: string)
    ensures CanonLine(CanonLine(line)) == CanonLine(line)
    ensures CanonLine(line) == "" <==> Blank(line)
    ensures OneLine(line) ==> OneLine(CanonLine(line))
  {
    WrittenIsCanon(line);
    WrittenIsTidy(line, false);
    WrittenIsEmpty(line, false);
    if OneLine(line) {
      WrittenOnOneLine(line, false);
    }
    TidyIsWritten(CanonLine(line));
    WrittenIsCanon(CanonLine(line));
  }

  // ---------------------------------------------------------------- the body

  function CanonLines(ls: seq<string>): seq<string> {
    seq(|ls|, i requires 0 <= i < |ls| => CanonLine(ls[i]))
  }

  /** Without the empty lines at the end. */
  function DropEmpty(ls: seq<string>): seq<string> {
    if ls != [] && ls[|ls| - 1] == "" then DropEmpty(ls[..|ls| - 1]) else ls
  }

  /** A body, section 3.4.4 of RFC 6376: its lines canonicalized, the empty ones at its end ignored, and
      every line that remains ended by CRLF. */
  function CanonBodyLines(ls: seq<string>): string {
    Ended(DropEmpty(CanonLines(ls)))
  }

  function CanonBody(body: string): string {
    CanonBodyLines(Lines(body))
  }

  method CanonicalizeLines(given: seq<string>) returns (lines: seq<string>)
    ensures lines == CanonLines(given)
  {
    lines := given;
    for i := 0 to |lines|
      invariant |lines| == |given|
      invariant forall k :: 0 <= k < |given| ==> lines[k] == if k < i then CanonLine(given[k]) else given[k]
    {
      var line := CanonicalizeLine(lines[i]);
      lines := lines[i := line];
    }
  }

  method CanonicalizeBody(body: string) returns (out: string)
    ensures out == CanonBody(body)
  {
    var text := ToLF(body);
    var split := Split(text);
    var lines := CanonicalizeLines(split);
    while |lines| > 0 && lines[|lines| - 1] == ""
      invariant DropEmpty(lines) == DropEmpty(CanonLines(split))
      decreases |lines|
    {
      lines := lines[..|lines| - 1];
    }
    if |lines| == 0 {
      return "";
    }
    JoinEnds(lines);
    out := Join(lines) + CRLF;
  }

  lemma CanonLinesSnoc(ls: seq<string>, l: string)
    ensures CanonLines(ls + [l]) == CanonLines(ls) + [CanonLine(l)]
  {
  }

  /** One more empty line at the end changes nothing. */
  lemma EmptyEndIgnored(ls: seq<string>)
    ensures CanonBodyLines(ls + [""]) == CanonBodyLines(ls)
  {
    CanonLinesSnoc(ls, "");
    assert (CanonLines(ls) + [""])[..|ls|] == CanonLines(ls);
  }

  lemma {:induction false} DropEmptyMeans(ls: seq<string>)
    ensures DropEmpty(ls) <= ls && DropEmpty(DropEmpty(ls)) == DropEmpty(ls)
    ensures DropEmpty(ls) == [] <==> forall i :: 0 <= i < |ls| ==> ls[i] == ""
  {
    if ls != [] && ls[|ls| - 1] == "" {
      DropEmptyMeans(ls[..|ls| - 1]);
      assert ls == ls[..|ls| - 1] + [""];
    }
  }

  /** Canonicalizing a body twice is canonicalizing it once. */
  lemma CanonBodyOnce(body: string)
    ensures CanonBody(CanonBody(body)) == CanonBody(body)
  {
    var canon := CanonLines(Lines(body));
    var ls := DropEmpty(canon);
    DropEmptyMeans(canon);
    forall i | 0 <= i < |ls| ensures OneLine(ls[i]) && CanonLine(ls[i]) == ls[i] {
      CanonLineOnce(Lines(body)[i]);
    }
    assert CanonLines(ls) == ls;
    LinesOfEnded(ls, "");
    assert Ended(ls) + "" == Ended(ls);
    EmptyEndIgnored(ls);
  }

  /** Nothing is hashed exactly when every line of the body is blank. */
  lemma CanonBodyEmpty(body: string)
    ensures CanonBody(body) == "" <==> forall i :: 0 <= i < |Lines(body)| ==> Blank(Lines(body)[i])
  {
    var ls := Lines(body);
    DropEmptyMeans(CanonLines(ls));
    forall i | 0 <= i < |ls| ensures CanonLines(ls)[i] == "" <==> Blank(ls[i]) {
      CanonLineOnce(ls[i]);
    }
  }

  // ---------------------------------------------------------------- a header value

  function NoCRLF(s: string): string {
    if s == "" then "" else if StartsCRLF(s) then NoCRLF(s[2..]) else [s[0]] + NoCRLF(s[1..])
  }

  function NoLF(s: string): string {
    if s == "" then "" else if s[0] == '\n' then NoLF(s[1..]) else [s[0]] + NoLF(s[1..])
  }

  function Unfold(value: string): string {
    NoLF(NoCRLF(value))
  }

  /** A header value, section 3.4.2 of RFC 6376: unfolded, white space at both ends deleted, runs
      reduced. */
  function CanonValue(value: string): string {
    CanonLine(TrimStart(Unfold(value)))
  }

  /** What the loop over a value writes for the rest of it: as over a line, but nothing for white space
      before the first thing written. */
  function Emitted(line: string, space: bool, started: bool): string {
    if line == "" then ""
    else if IsWsp(line[0]) then Emitted(line[1..], true, started)
    else (if space && started then " " else "") + [line[0]] + Emitted(line[1..], false, true)
  }

  lemma {:induction false} EmittedIsWritten(line: string, space: bool)
    ensures Emitted(line, space, true) == Written(line, space)
    ensures Emitted(line, space, false) == Written(TrimStart(line), false)
  {
    if line == "" {
    } else {
      EmittedIsWritten(line[1..], IsWsp(line[0]));
    }
  }

  method CanonicalizeValue(value: string) returns (out: string)
    ensures out == CanonValue(value)
  {
    var line := NoCRLF(value);
    line := NoLF(line);
    out := "";
    var space := false;
    for i := 0 to |line|
      invariant out + Emitted(line[i..], space, out != "") == Emitted(line, false, false)
    {
      assert line[i..][1..] == line[i + 1..];
      if IsWsp(line[i]) {
        space := true;
        continue;
      }
      if space && |out| > 0 {
        out := out + " ";
      }
      space := false;
      out := out + [line[i]];
    }
    EmittedIsWritten(line, false);
    WrittenIsCanon(TrimStart(line));
  }

  lemma {:induction false} NoCRLFAt(a: string, c: char, b: string)
    requires c != '\r' && c != '\n'
    ensures NoCRLF(a + [c] + b) == NoCRLF(a) + [c] + NoCRLF(b)
  {
    var s := a + [c] + b;
    if a == "" {
      assert s[1..] == b;
    } else if StartsCRLF(a) {
      NoCRLFAt(a[2..], c, b);
      assert s[2..] == a[2..] + [c] + b;
    } else {
      NoCRLFAt(a[1..], c, b);
      assert s[1..] == a[1..] + [c] + b;
      Assoc([a[0]], NoCRLF(a[1..]), [c], NoCRLF(b));
      assert |a| > 1 ==> s[1] == a[1];
    }
  }

  lemma {:induction false} NoCRLFFold(a: string, c: char, b: string)
    requires c != '\r' && c != '\n'
    ensures NoCRLF(a + CRLF + [c] + b) == NoCRLF(a) + [c] + NoCRLF(b)
  {
    var s := a + CRLF + [c] + b;
    if a == "" {
      assert s[2..] == [c] + b;
      NoCRLFAt("", c, b);
      assert "" + [c] + b == [c] + b;
    } else if StartsCRLF(a) {
      NoCRLFFold(a[2..], c, b);
      assert s[2..] == a[2..] + CRLF + [c] + b;
    } else {
      NoCRLFFold(a[1..], c, b);
      assert s[1..] == a[1..] + CRLF + [c] + b;
      Assoc([a[0]], NoCRLF(a[1..]), [c], NoCRLF(b));
      assert |a| > 1 ==> s[1] == a[1];
    }
  }

  lemma {:induction false} NoLFAt(a: string, c: char, b: string)
    requires c != '\n'
    ensures NoLF(a + [c] + b) == NoLF(a) + [c] + NoLF(b)
  {
    var s := a + [c] + b;
    if a == "" {
      assert s[1..] == b;
    } else {
      NoLFAt(a[1..], c, b);
      assert s[1..] == a[1..] + [c] + b;
      Assoc([a[0]], NoLF(a[1..]), [c], NoLF(b));
    }
  }

  lemma {:induction false} WrittenSwap(x: string, c: char, d: char, y: string, space: bool)
    requires IsWsp(c) && IsWsp(d)
    ensures Written(x + [c] + y, space) == Written(x + [d] + y, space)
  {
    var s, t := x + [c] + y, x + [d] + y;
    if x == "" {
      assert s[1..] == y && t[1..] == y;
    } else {
      WrittenSwap(x[1..], c, d, y, IsWsp(x[0]));
      assert s[1..] == x[1..] + [c] + y && t[1..] == x[1..] + [d] + y;
    }
  }

  lemma {:induction false} TrimmedSwap(x: string, c: char, d: char, y: string)
    requires IsWsp(c) && IsWsp(d)
    ensures Written(TrimStart(x + [c] + y), false) == Written(TrimStart(x + [d] + y), false)
  {
    var s, t := x + [c] + y, x + [d] + y;
    if x == "" {
      assert s[1..] == y && t[1..] == y;
    } else if IsWsp(x[0]) {
      TrimmedSwap(x[1..], c, d, y);
      assert s[1..] == x[1..] + [c] + y && t[1..] == x[1..] + [d] + y;
    } else {
      WrittenSwap(x, c, d, y, false);
    }
  }

  /** Folding a value at any space, with CRLF and a tab, changes nothing that is signed. */
  lemma FoldingIsInvisible(a: string, b: string)
    ensures CanonValue(a + " " + b) == CanonValue(a + "\r\n\t" + b)
  {
    var x, y := Unfold(a), Unfold(b);
    NoCRLFAt(a, ' ', b);
    NoLFAt(NoCRLF(a), ' ', NoCRLF(b));
    assert Unfold(a + " " + b) == x + [' '] + y;
    assert a + "\r\n\t" + b == a + CRLF + ['\t'] + b;
    NoCRLFFold(a, '\t', b);
    NoLFAt(NoCRLF(a), '\t', NoCRLF(b));
    assert Unfold(a + "\r\n\t" + b) == x + ['\t'] + y;
    TrimmedSwap(x, ' ', '\t', y);
    WrittenIsCanon(TrimStart(x + [' '] + y));
    WrittenIsCanon(TrimStart(x + ['\t'] + y));
  }

  lemma LeadingSpaceIgnored(value: string)
    ensures CanonValue(" " + value) == CanonValue(value)
  {
    NoCRLFAt("", ' ', value);
    NoLFAt("", ' ', NoCRLF(value));
    assert "" + [' '] + value == " " + value;
    assert "" + [' '] + NoCRLF(value) == " " + NoCRLF(value);
    assert (" " + Unfold(value))[1..] == Unfold(value);
  }
}
