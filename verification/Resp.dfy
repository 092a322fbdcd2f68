/** The Redis wire protocol: how a command is written and how a reply is read. A byte is a char. */
module Resp {
  import opened Wrappers
  import Bufio

  datatype Value = Null | Str(text: string) | Int(number: int) | Arr(items: seq<Value>)

  datatype Fault = Eof | Empty | Refused(message: string) | BadNumber | TooLong | TooDeep | Unknown

  datatype Result<+T> = Fail(fault: Fault) | Got(value: T, rest: string)

  function Before(pre: seq<Value>, r: Result<seq<Value>>): Result<seq<Value>> {
    match r case Fail(f) => Fail(f) case Got(v, rest) => Got(pre + v, rest)
  }

  lemma BeforeBefore(a: seq<Value>, b: seq<Value>, r: Result<seq<Value>>)
    ensures Before(a, Before(b, r)) == Before(a + b, r) && Before([], r) == r
  {
    if r.Got? {
      assert a + (b + r.value) == a + b + r.value;
      assert [] + r.value == r.value;
    }
  }

  function AsArray(r: Result<seq<Value>>): Result<Value> {
    match r case Fail(f) => Fail(f) case Got(vs, rest) => Got(Arr(vs), rest)
  }

  const MAX_BULK: nat := 512 * 1024 * 1024
  const MAX_ARRAY: nat := 1024 * 1024
  const MAX_DEPTH: nat := 8

  const MIN_INT64: int := -0x8000_0000_0000_0000
  const MAX_INT64: int := 0x7fff_ffff_ffff_ffff

  // ---------------------------------------------------------------- numbers

  predicate IsDigit(c: char) {
    '0' <= c <= '9'
  }

  function ValueOf(c: char): (n: nat)
    requires IsDigit(c)
    ensures n < 10
  {
    (c - '0') as nat
  }

  function DigitOf(n: nat): (c: char)
    requires n < 10
    ensures IsDigit(c) && ValueOf(c) == n
  {
    '0' + n as char
  }

  predicate Digits(s: string) {
    s != "" && forall i :: 0 <= i < |s| ==> IsDigit(s[i])
  }

  function Number(s: string): nat
    requires forall i :: 0 <= i < |s| ==> IsDigit(s[i])
  {
    if s == "" then 0 else 10 * Number(s[..|s| - 1]) + ValueOf(s[|s| - 1])
  }

  /** A signed decimal number that fits in 64 bits. */
  function ParseInt(s: string): Option<int> {
    var signed := s != "" && (s[0] == '-' || s[0] == '+');
    var digits := if signed then s[1..] else s;
    if !Digits(digits) then None
    else
      var n := if signed && s[0] == '-' then 0 - Number(digits) as int else Number(digits) as int;
      if MIN_INT64 <= n <= MAX_INT64 then Some(n) else None
  }

  function Decimal(n: nat): (s: string)
    ensures Digits(s)
  {
    if n < 10 then [DigitOf(n)] else Decimal(n / 10) + [DigitOf(n % 10)]
  }

  lemma {:induction false} NumberOfDecimal(n: nat)
    ensures Number(Decimal(n)) == n
  {
    if n < 10 {
      assert Decimal(n)[..0] == "";
    } else {
      NumberOfDecimal(n / 10);
      assert Decimal(n)[..|Decimal(n)| - 1] == Decimal(n / 10);
    }
  }

  // ---------------------------------------------------------------- writing

  function EncodeOne(a: string): string {
    "$" + Decimal(|a|) + "\r\n" + a + "\r\n"
  }

  function EncodeEach(args: seq<string>): string {
    if args == [] then "" else EncodeOne(args[0]) + EncodeEach(args[1..])
  }

  function Encoded(args: seq<string>): string {
    "*" + Decimal(|args|) + "\r\n" + EncodeEach(args)
  }

  method Encode(args: seq<string>) returns (out: string)
    ensures out == Encoded(args)
  {
    out := "*" + Decimal(|args|) + "\r\n";
    for i := 0 to |args|
      invariant out + EncodeEach(args[i..]) == Encoded(args)
    {
      var a := args[i];
      assert args[i..][1..] == args[i + 1..];
      assert out + (EncodeOne(a) + EncodeEach(args[i + 1..])) == out + EncodeOne(a) + EncodeEach(args[i + 1..]);
      out := out + ("$" + Decimal(|a|) + "\r\n" + a + "\r\n");
    }
  }

  // ---------------------------------------------------------------- reading

  function Bulk(s: string, n: nat): Result<Value> {
    if |s| < n + 2 then Fail(Eof) else Got(Str(s[..n]), s[n + 2..])
  }

  /** What a reply line says, apart from what follows it: an error, a whole value, or the number of bytes
      or of elements to read next. */
  datatype Lead = Stop(fault: Fault) | Whole(value: Value) | Bytes(n: nat) | Elements(n: nat)

  function ReadLead(line: string): (l: Lead)
    ensures l.Stop? ==> l.fault != Eof && l.fault != TooDeep
    ensures l.Whole? ==> !l.value.Arr?
  {
    if line == "" then Stop(Empty)
    else if line[0] == '+' then Whole(Str(line[1..]))
    else if line[0] == '-' then Stop(Refused(line[1..]))
    else if line[0] == ':' || line[0] == '$' || line[0] == '*' then
      match ParseInt(line[1..])
      case None => Stop(BadNumber)
      case Some(n) =>
        if line[0] == ':' then Whole(Int(n))
        else if n < 0 then Whole(Null)
        else if line[0] == '$' then if n > MAX_BULK then Stop(TooLong) else Bytes(n)
        else if n > MAX_ARRAY then Stop(TooLong) else Elements(n)
    else Stop(Unknown)
  }

  function Decode(s: string, depth: nat): (r: Result<Value>)
    ensures r.Got? ==> |r.rest| < |s|
    decreases |s|, 0
  {
    if depth > MAX_DEPTH then Fail(TooDeep)
    else
      match Bufio.Line(s)
      case Starved => Fail(Eof)
      case Took(line, rest) => Follow(ReadLead(Bufio.TrimEnds(line)), rest, depth)
  }

  /** The value a reply line leads in. */
  function Follow(lead: Lead, rest: string, depth: nat): (r: Result<Value>)
    ensures r.Got? ==> |r.rest| <= |rest|
    decreases |rest|, if lead.Elements? then lead.n + 1 else 0
  {
    match lead
    case Stop(f) => Fail(f)
    case Whole(v) => Got(v, rest)
    case Bytes(n) => Bulk(rest, n)
    case Elements(n) => AsArray(DecodeMany(rest, n, depth + 1))
  }

  function DecodeMany(s: string, n: nat, depth: nat): (r: Result<seq<Value>>)
    ensures r.Got? ==> |r.rest| <= |s| && |r.value| == n
    decreases |s|, n
  {
    if n == 0 then Got([], s)
    else
      match Decode(s, depth)
      case Fail(f) => Fail(f)
      case Got(v, rest) => Before([v], DecodeMany(rest, n - 1, depth))
  }

  method ReadBulk(r: Bufio.Reader, n: nat) returns (v: Result<Value>)
    modifies r
    ensures v == Bulk(old(r.rest), n) && (v.Got? ==> r.rest == v.rest)
  {
    if |r.rest| < n + 2 {
      return Fail(Eof);
    }
    var text := r.rest[..n];
    r.rest := r.rest[n + 2..];
    return Got(Str(text), r.rest);
  }

  method ReadValue(r: Bufio.Reader, depth: nat) returns (v: Result<Value>)
    modifies r
    ensures v == Decode(old(r.rest), depth) && (v.Got? ==> r.rest == v.rest)
    decreases |r.rest|, 0
  {
    if depth > MAX_DEPTH {
      return Fail(TooDeep);
    }
    var read := r.ReadString();
    if read.Starved? {
      return Fail(Eof);
    }
    match ReadLead(Bufio.TrimEnds(read.value))
    case Stop(f) => return Fail(f);
    case Whole(w) => return Got(w, r.rest);
    case Bytes(n) => v := ReadBulk(r, n);
    case Elements(n) => v := ReadElements(r, n, depth + 1);
  }

  method ReadElements(r: Bufio.Reader, n: nat, depth: nat) returns (v: Result<Value>)
    modifies r
    ensures v == AsArray(DecodeMany(old(r.rest), n, depth))
    ensures v.Got? ==> r.rest == v.rest
    decreases |r.rest|, 1
  {
    var out: seq<Value> := [];
    BeforeBefore([], [], DecodeMany(r.rest, n, depth));
    for i := 0 to n
      invariant |r.rest| <= |old(r.rest)|
      invariant DecodeMany(old(r.rest), n, depth) == Before(out, DecodeMany(r.rest, n - i, depth))
    {
      var item := ReadValue(r, depth);
      if item.Fail? {
        return Fail(item.fault);
      }
      BeforeBefore(out, [item.value], DecodeMany(r.rest, n - i - 1, depth));
      out := out + [item.value];
    }
    assert out + [] == out;
    return Got(Arr(out), r.rest);
  }

  // ---------------------------------------------------------------- what the reader builds

  function Nodes(v: Value): nat {
    if v.Arr? then 1 + NodesOf(v.items) else 1
  }

  function NodesOf(vs: seq<Value>): nat {
    if vs == [] then 0 else Nodes(vs[0]) + NodesOf(vs[1..])
  }

  function Height(v: Value): nat {
    if v.Arr? then HeightOf(v.items) else 0
  }

  /** How far below them the values go, counting the step down to them. */
  function HeightOf(vs: seq<Value>): nat {
    if vs == [] then 0
    else
      var h, t := 1 + Height(vs[0]), HeightOf(vs[1..]);
      if h > t then h else t
  }

  /** Whatever the input claims, the value built has no more nodes than the bytes read for it, and none
      deeper than the limit. */
  lemma {:induction false} Bounded(s: string, depth: nat)
    requires Decode(s, depth).Got?
    ensures var r := Decode(s, depth);
            Nodes(r.value) + |r.rest| <= |s| && Height(r.value) + depth <= MAX_DEPTH
    decreases |s|, 0
  {
    FollowBounded(ReadLead(Bufio.TrimEnds(Bufio.Line(s).value)), Bufio.Line(s).rest, depth);
  }

  lemma {:induction false} FollowBounded(lead: Lead, rest: string, depth: nat)
    requires depth <= MAX_DEPTH && Follow(lead, rest, depth).Got? && (lead.Whole? ==> !lead.value.Arr?)
    ensures var r := Follow(lead, rest, depth);
            Nodes(r.value) + |r.rest| <= |rest| + 1 && Height(r.value) + depth <= MAX_DEPTH
    decreases |rest|, if lead.Elements? then lead.n + 1 else 0
  {
    if lead.Elements? {
      BoundedMany(rest, lead.n, depth + 1);
    }
  }

  lemma {:induction false} BoundedMany(s: string, n: nat, depth: nat)
    requires depth >= 1 && DecodeMany(s, n, depth).Got?
    ensures var r := DecodeMany(s, n, depth);
            && NodesOf(r.value) + |r.rest| <= |s|
            && (depth <= MAX_DEPTH + 1 ==> HeightOf(r.value) + depth - 1 <= MAX_DEPTH)
    decreases |s|, n
  {
    if n == 0 {
    } else {
      Bounded(s, depth);
      var v := Decode(s, depth);
      BoundedMany(v.rest, n - 1, depth);
      var r := DecodeMany(s, n, depth);
      assert r.value[1..] == DecodeMany(v.rest, n - 1, depth).value;
    }
  }

  // ---------------------------------------------------------------- framing

  /** The same, with more input after it. */
  function Longer<T>(r: Result<T>, t: string): Result<T> {
    if r.Got? then Got(r.value, r.rest + t) else r
  }

  ghost predicate Settled<T>(r: Result<T>) {
    r != Fail(Eof)
  }

  /** What the reader makes of some input, value or error, no later input changes; only at the end of
      the input does it wait for more. */
  lemma {:induction false} DecodeLonger(s: string, depth: nat, t: string)
    requires Settled(Decode(s, depth))
    ensures Decode(s + t, depth) == Longer(Decode(s, depth), t)
    decreases |s|, 0
  {
    if depth <= MAX_DEPTH {
      Bufio.LineLonger(s, t);
      FollowLonger(ReadLead(Bufio.TrimEnds(Bufio.Line(s).value)), Bufio.Line(s).rest, depth, t);
    }
  }

  lemma {:induction false} FollowLonger(lead: Lead, rest: string, depth: nat, t: string)
    requires Settled(Follow(lead, rest, depth))
    ensures Follow(lead, rest + t, depth) == Longer(Follow(lead, rest, depth), t)
    decreases |rest|, if lead.Elements? then lead.n + 1 else 0
  {
    if lead.Bytes? {
      assert (rest + t)[..lead.n] == rest[..lead.n];
      assert (rest + t)[lead.n + 2..] == rest[lead.n + 2..] + t;
    } else if lead.Elements? {
      ManyLonger(rest, lead.n, depth + 1, t);
    }
  }

  /** One element, and then the others. */
  function AndThen(first: Result<Value>, others: Result<seq<Value>>): Result<seq<Value>> {
    if first.Fail? then Fail(first.fault) else Before([first.value], others)
  }

  lemma OneAndOthers(s: string, n: nat, depth: nat, first: Result<Value>)
    requires n > 0 && first == Decode(s, depth)
    ensures DecodeMany(s, n, depth) ==
            AndThen(first, if first.Got? then DecodeMany(first.rest, n - 1, depth) else Fail(Eof))
  {
  }

  lemma AndThenLonger(first: Result<Value>, others: Result<seq<Value>>, t: string)
    ensures AndThen(Longer(first, t), Longer(others, t)) == Longer(AndThen(first, others), t)
  {
  }

  lemma {:induction false} ManyLonger(s: string, n: nat, depth: nat, t: string)
    requires Settled(DecodeMany(s, n, depth))
    ensures DecodeMany(s + t, n, depth) == Longer(DecodeMany(s, n, depth), t)
    decreases |s|, n
  {
    if n == 0 {
    } else {
      var first, later := Decode(s, depth), Decode(s + t, depth);
      OneAndOthers(s, n, depth, first);
      OneAndOthers(s + t, n, depth, later);
      DecodeLonger(s, depth, t);
      if first.Got? {
        ManyLonger(first.rest, n - 1, depth, t);
        AndThenLonger(first, DecodeMany(first.rest, n - 1, depth), t);
      }
    }
  }

  /** A reply cut short anywhere is never taken for another reply, nor for an error of the server. */
  lemma CutShort(s: string, k: nat, depth: nat)
    requires k < |s| && Decode(s, depth).Got? && Decode(s, depth).rest == ""
    ensures Decode(s[..k], depth) == Fail(Eof)
  {
    assert s == s[..k] + s[k..];
    if Settled(Decode(s[..k], depth)) {
      DecodeLonger(s[..k], depth, s[k..]);
    }
  }

  // ---------------------------------------------------------------- the round trip

  predicate Within(args: seq<string>) {
    |args| <= MAX_ARRAY && forall i :: 0 <= i < |args| ==> |args[i]| <= MAX_BULK
  }

  predicate Short(args: seq<string>) {
    args == [] || (|args[0]| <= MAX_BULK && Short(args[1..]))
  }

  lemma {:induction false} ShortMeans(args: seq<string>)
    ensures Short(args) <==> forall i :: 0 <= i < |args| ==> |args[i]| <= MAX_BULK
  {
    if args == [] {
    } else {
      ShortMeans(args[1..]);
      assert forall i :: 0 < i < |args| ==> args[i] == args[1..][i - 1];
    }
  }

  function Strings(args: seq<string>): seq<Value> {
    seq(|args|, i requires 0 <= i < |args| => Str(args[i]))
  }

  lemma CountLead(c: char, n: nat)
    requires c == '$' || c == '*'
    ensures ReadLead([c] + Decimal(n)) == if n > MAX_INT64 then Stop(BadNumber)
                                          else if n > (if c == '$' then MAX_BULK else MAX_ARRAY) then Stop(TooLong)
                                          else if c == '$' then Bytes(n) else Elements(n)
  {
    NumberOfDecimal(n);
    assert ([c] + Decimal(n))[1..] == Decimal(n);
    assert IsDigit(Decimal(n)[0]);
  }

  /** A count, as the encoder writes it and the reader reads it. */
  lemma ReadsCount(c: char, n: nat, rest: string, depth: nat)
    requires (c == '$' || c == '*') && depth <= MAX_DEPTH
    ensures Decode([c] + Decimal(n) + "\r\n" + rest, depth) ==
            if n > MAX_INT64 then Fail(BadNumber)
            else if n > (if c == '$' then MAX_BULK else MAX_ARRAY) then Fail(TooLong)
            else Follow(if c == '$' then Bytes(n) else Elements(n), rest, depth)
  {
    var line := [c] + Decimal(n);
    assert IsDigit(Decimal(n)[|Decimal(n)| - 1]);
    Bufio.LineSent(line, rest);
    CountLead(c, n);
  }

  lemma RoundTripOne(a: string, more: string, depth: nat)
    requires depth <= MAX_DEPTH
    ensures Decode(EncodeOne(a) + more, depth) ==
            if |a| > MAX_INT64 then Fail(BadNumber) else if |a| > MAX_BULK then Fail(TooLong) else Got(Str(a), more)
  {
    var tail := a + "\r\n" + more;
    assert EncodeOne(a) + more == ['$'] + Decimal(|a|) + "\r\n" + tail;
    ReadsCount('$', |a|, tail, depth);
    assert tail[..|a|] == a && tail[|a| + 2..] == more;
  }

  lemma {:induction false} RoundTripEach(args: seq<string>, rest: string, depth: nat)
    requires depth <= MAX_DEPTH
    ensures Short(args) ==> DecodeMany(EncodeEach(args) + rest, |args|, depth) == Got(Strings(args), rest)
    ensures !Short(args) ==> DecodeMany(EncodeEach(args) + rest, |args|, depth).Fail?
  {
    if args == [] {
      assert EncodeEach(args) + rest == rest;
    } else {
      var more := EncodeEach(args[1..]) + rest;
      assert EncodeEach(args) + rest == EncodeOne(args[0]) + more;
      RoundTripOne(args[0], more, depth);
      RoundTripEach(args[1..], rest, depth);
      assert Strings(args) == [Str(args[0])] + Strings(args[1..]);
    }
  }

  /** Decoding an encoded command and whatever follows it gives back the command and leaves exactly what
      follows, precisely when the command is within the limits. */
  lemma RoundTrip(args: seq<string>, rest: string)
    ensures Within(args) ==> Decode(Encoded(args) + rest, 0) == Got(Arr(Strings(args)), rest)
    ensures !Within(args) ==> Decode(Encoded(args) + rest, 0).Fail?
  {
    var tail := EncodeEach(args) + rest;
    assert Encoded(args) + rest == ['*'] + Decimal(|args|) + "\r\n" + tail;
    ReadsCount('*', |args|, tail, 0);
    RoundTripEach(args, rest, 1);
    ShortMeans(args);
  }
}
