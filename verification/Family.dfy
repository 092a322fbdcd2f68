/** Which receiving system an MX host belongs to, and so under which key it is paced. The table of
    families is any that the start-up check accepts. */
module Family {
  import opened Wrappers
  import opened Hosts

  datatype Family = Family(suffix: string, key: string)

  predicate IsKey(s: string) {
    |s| > 0 && s[0] == '@'
  }

  predicate Matches(h: string, suffix: string) {
    h == suffix || HasSuffix(h, "." + suffix)
  }

  /** The key of the first family of the table the host matches. */
  function KeyFor(fs: seq<Family>, h: string): Option<string> {
    if fs == [] then None else if Matches(h, fs[0].suffix) then Some(fs[0].key) else KeyFor(fs[1..], h)
  }

  function PaceKey(fs: seq<Family>, host: string): string {
    if IsKey(host) then host else match KeyFor(fs, Normal(host)) case None => host case Some(key) => key
  }

  method FindPaceKey(fs: seq<Family>, host: string) returns (key: string)
    ensures key == PaceKey(fs, host)
  {
    if |host| > 0 && host[0] == '@' {
      return host;
    }
    var h := Normal(host);
    for i := 0 to |fs|
      invariant KeyFor(fs, h) == KeyFor(fs[i..], h)
    {
      assert fs[i..][1..] == fs[i + 1..];
      if h == fs[i].suffix || HasSuffix(h, "." + fs[i].suffix) {
        return fs[i].key;
      }
    }
    key := host;
  }

  /** What the start-up check demands of every entry's key. */
  ghost predicate Keyed(fs: seq<Family>) {
    forall i :: 0 <= i < |fs| ==> IsKey(fs[i].key)
  }

  /** One of the families of the table has this key. */
  ghost predicate InTable(fs: seq<Family>, key: string) {
    exists i :: 0 <= i < |fs| && fs[i].key == key
  }

  lemma {:induction false} KeyForInTable(fs: seq<Family>, h: string)
    requires KeyFor(fs, h).Some?
    ensures InTable(fs, KeyFor(fs, h).value)
  {
    if Matches(h, fs[0].suffix) {
      assert fs[0].key == KeyFor(fs, h).value;
    } else {
      KeyForInTable(fs[1..], h);
      var i :| 0 <= i < |fs[1..]| && fs[1..][i].key == KeyFor(fs, h).value;
      assert fs[i + 1].key == KeyFor(fs, h).value;
    }
  }

  /** What a host is paced under is a key of the table or the host as given, and is its own key. */
  lemma PaceKeyMeans(fs: seq<Family>, host: string)
    requires Keyed(fs)
    ensures PaceKey(fs, host) == host || (InTable(fs, PaceKey(fs, host)) && IsKey(PaceKey(fs, host)))
    ensures PaceKey(fs, PaceKey(fs, host)) == PaceKey(fs, host)
  {
    if KeyFor(fs, Normal(host)).Some? {
      KeyForInTable(fs, Normal(host));
    }
  }

  /** No other host shares the key of a host of no family. */
  lemma LoneHostIsAlone(fs: seq<Family>, host: string, other: string)
    requires Keyed(fs) && !InTable(fs, PaceKey(fs, host)) && PaceKey(fs, other) == PaceKey(fs, host)
    ensures other == host
  {
    PaceKeyMeans(fs, host);
    PaceKeyMeans(fs, other);
  }

  // ---------------------------------------------------------------- on a label boundary only

  function Cons(c: char, ls: seq<string>): seq<string>
    requires |ls| >= 1
  {
    if c == '.' then [""] + ls else [[c] + ls[0]] + ls[1..]
  }

  /** The labels between the dots. */
  function Labels(s: string): (ls: seq<string>)
    ensures |ls| >= 1
  {
    if s == "" then [""]
    else
      Cons(s[0], Labels(s[1..]))
  }

  function Dotted(ls: seq<string>): string
    requires |ls| >= 1
  {
    if |ls| == 1 then ls[0] else ls[0] + "." + Dotted(ls[1..])
  }

  lemma {:induction false} DottedLabels(s: string)
    ensures Dotted(Labels(s)) == s
  {
    if s == "" {
    } else {
      DottedLabels(s[1..]);
      var rest := Labels(s[1..]);
      if s[0] == '.' {
        assert ([""] + rest)[1..] == rest;
        assert "" + "." + s[1..] == s;
      } else {
        assert ([[s[0]] + rest[0]] + rest[1..])[1..] == rest[1..];
        assert s == [s[0]] + s[1..];
      }
    }
  }

  lemma ConsLabels(c: char, a: seq<string>, b: seq<string>)
    requires |a| >= 1
    ensures Cons(c, a + b) == Cons(c, a) + b
  {
    assert (a + b)[0] == a[0] && (a + b)[1..] == a[1..] + b;
    assert [""] + (a + b) == [""] + a + b;
    assert [[c] + a[0]] + (a[1..] + b) == [[c] + a[0]] + a[1..] + b;
  }

  lemma {:induction false} LabelsConcat(a: string, b: string)
    ensures Labels(a + "." + b) == Labels(a) + Labels(b)
  {
    var s := a + "." + b;
    if a == "" {
      assert s[1..] == b;
    } else {
      LabelsConcat(a[1..], b);
      assert s[1..] == a[1..] + "." + b;
      ConsLabels(a[0], Labels(a[1..]), Labels(b));
    }
  }

  lemma {:induction false} DottedConcat(a: seq<string>, b: seq<string>)
    requires |a| >= 1 && |b| >= 1
    ensures Dotted(a + b) == Dotted(a) + "." + Dotted(b)
  {
    if |a| == 1 {
      assert (a + b)[1..] == b;
    } else {
      DottedConcat(a[1..], b);
      assert (a + b)[1..] == a[1..] + b;
      assert a[0] + "." + (Dotted(a[1..]) + "." + Dotted(b)) == a[0] + "." + Dotted(a[1..]) + "." + Dotted(b);
    }
  }

  ghost predicate EndsWith(ls: seq<string>, tail: seq<string>) {
    |tail| <= |ls| && ls[|ls| - |tail|..] == tail
  }

  lemma MatchEndsLabels(h: string, suffix: string)
    requires Matches(h, suffix)
    ensures EndsWith(Labels(h), Labels(suffix))
  {
    if h != suffix {
      var a := h[..|h| - |suffix| - 1];
      assert h == a + ("." + suffix) == a + "." + suffix;
      LabelsConcat(a, suffix);
    }
  }

  lemma LabelsEndMatch(h: string, suffix: string)
    requires EndsWith(Labels(h), Labels(suffix))
    ensures Matches(h, suffix)
  {
    var n := |Labels(h)| - |Labels(suffix)|;
    DottedLabels(h);
    DottedLabels(suffix);
    if n == 0 {
      assert Labels(h) == Labels(suffix);
    } else {
      var a := Labels(h)[..n];
      assert Labels(h) == a + Labels(suffix);
      DottedConcat(a, Labels(suffix));
      assert h[|Dotted(a)|..] == "." + suffix;
    }
  }

  /** A host matches a suffix exactly when its labels end with the labels of the suffix: never inside a
      label, and never anywhere but at the end. */
  lemma MatchesWholeLabels(h: string, suffix: string)
    ensures Matches(h, suffix) <==> EndsWith(Labels(h), Labels(suffix))
  {
    if Matches(h, suffix) {
      MatchEndsLabels(h, suffix);
    } else if EndsWith(Labels(h), Labels(suffix)) {
      LabelsEndMatch(h, suffix);
    }
  }
}
