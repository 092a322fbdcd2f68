/** The catch-all question: what the replies to known-bad addresses establish about a domain and
    the server behind it, and why asking them one at a time loses so little. */
module CatchAll {
  import opened Wrappers
  import opened Replies

  /** `None` is "not established", which is not `Some(false)`. */
  datatype Verdict = Verdict(catchAll: Option<bool>, randomiser: Option<bool>)

  const Unsettled := Verdict(None, None)
  const Honest := Verdict(Some(false), Some(false))
  const TakesAll := Verdict(Some(true), Some(false))
  const CoinFlip := Verdict(Some(true), Some(true))

  const AUDIT_PROBES := 3

  /** Reads the bogus probes from how many were accepted and how many answered. */
  function Decide(accepted: nat, answered: nat): Verdict {
    if answered == 0 then Unsettled
    else if accepted == answered then TakesAll
    else if accepted == 0 then Honest
    else CoinFlip
  }

  /** The answers that arrived, each as "was it accepted". */
  function Bits(w: Wording, replies: seq<Option<Reply>>): seq<bool> {
    if replies == [] then []
    else
      Bits(w, replies[..|replies| - 1]) +
      (match replies[|replies| - 1]
       case None => []
       case Some(r) => [Classify(w, r) == Valid])
  }

  function Accepted(bits: seq<bool>): (n: nat)
    ensures n <= |bits|
  {
    if bits == [] then 0 else Accepted(bits[..|bits| - 1]) + (if bits[|bits| - 1] then 1 else 0)
  }

  /** The verdict a sequence of answers supports. */
  function Settle(bits: seq<bool>): Verdict {
    Decide(Accepted(bits), |bits|)
  }

  /** What the verdict means, read off the answers. */
  lemma {:induction false} AcceptedMeans(bits: seq<bool>)
    ensures Accepted(bits) == |bits| <==> forall j :: 0 <= j < |bits| ==> bits[j]
    ensures Accepted(bits) == 0 <==> forall j :: 0 <= j < |bits| ==> !bits[j]
  {
    if bits == [] {
    } else {
      var init := bits[..|bits| - 1];
      AcceptedMeans(init);
      assert forall j :: 0 <= j < |init| ==> init[j] == bits[j];
      assert bits[|bits| - 1] || Accepted(bits) <= |init|;
    }
  }

  lemma SettleMeans(bits: seq<bool>)
    ensures Settle(bits) == Unsettled <==> bits == []
    ensures Settle(bits) == TakesAll <==> bits != [] && forall j :: 0 <= j < |bits| ==> bits[j]
    ensures Settle(bits) == Honest <==> bits != [] && forall j :: 0 <= j < |bits| ==> !bits[j]
    ensures Settle(bits) == CoinFlip <==>
            (exists j :: 0 <= j < |bits| && bits[j]) && (exists j :: 0 <= j < |bits| && !bits[j])
  {
    AcceptedMeans(bits);
  }

  /** A run that stopped by the rule: every answer but the last accepted, and either the last was
      rejected or the ceiling was reached. */
  predicate EarlyRun(bits: seq<bool>, limit: nat) {
    && |bits| <= limit
    && (forall j :: 0 <= j < |bits| - 1 ==> bits[j])
    && (|bits| == limit || (bits != [] && !bits[|bits| - 1]))
  }

  /** Asking one at a time and stopping at the first rejection, compared with asking the whole
      sequence: it never condemns an honest server, never excuses a catch-all one, never calls a
      consistent server a randomiser, and it misses a randomiser exactly when the server happened to
      reject the first question or to accept the first `limit`. */
  lemma EarlyStopRefinesAudit(run: seq<bool>, full: seq<bool>, limit: nat)
    requires limit >= 1 && EarlyRun(run, limit) && run <= full && |full| >= limit
    ensures Settle(full) == Honest ==> Settle(run) == Honest
    ensures Settle(full) == TakesAll ==> Settle(run) == TakesAll
    ensures Settle(run) == CoinFlip ==> Settle(full) == CoinFlip
    ensures Settle(run) != Settle(full) <==>
            Settle(full) == CoinFlip && (!full[0] || forall j :: 0 <= j < limit ==> full[j])
  {
    SettleMeans(run);
    SettleMeans(full);
    assert forall j :: 0 <= j < |run| ==> run[j] == full[j];
    var last := |run| - 1;
    if !run[last] {
      assert Settle(run) == Honest || Settle(run) == CoinFlip;
      if last > 0 {
        assert run[0] && full[0];
        assert !full[last];
      }
    } else {
      assert forall j :: 0 <= j < limit ==> full[j];
    }
  }
}
