/** What one SMTP reply means, and what the prober tells its caller about one address.

    The classifier's regular expressions and hint lists are parameters (`Wording`): every
    statement in this project holds whatever prose they match. What is modelled is the
    branch structure around them. */
module Replies {
  import opened Wrappers

  datatype Reply = Reply(code: int, text: string)

  datatype Class =
    | Valid | Invalid
    | Deferred | Throttled | Timeout | ConnError | BadSequence | Policy
    | Guarded | NoBudget | Paused | IPBurned | Suppressed | TLSFailed | Unknown

  /** An RFC 3463 status code, as class.subject.detail. */
  datatype Enhanced = Enhanced(kind: nat, subject: nat, detail: nat)

  /** The prose tests of the classifier, each a predicate of the reply text. */
  datatype Wording = Wording(
    greylist: string -> bool,
    tlsDemand: string -> bool,
    throttle: string -> bool,
    senderHint: string -> bool,
    namesUs: string -> bool,
    mailbox: string -> bool,
    overQuota: string -> bool,
    sendingQuota: string -> bool,
    relay: string -> bool,
    domainLimit: string -> bool,
    enhanced: string -> Option<Enhanced>,
    retryAfter: string -> Option<int>,
    offersTLS: string -> bool)

  /** Only these two classes are statements about a mailbox. */
  predicate IsVerdict(c: Class) {
    c == Valid || c == Invalid
  }

  predicate IsThrottle(c: Class) {
    c == Throttled || c == Timeout || c == ConnError
  }

  function Subject(ec: Option<Enhanced>): int {
    if ec.Some? then ec.value.subject else -1
  }

  /** Codes that can only be about the sender: 5.1.7, 5.1.8 and 5.7.23 to 5.7.27. */
  predicate SenderCode(ec: Option<Enhanced>) {
    && ec.Some?
    && ec.value.kind == 5
    && (|| (ec.value.subject == 1 && ec.value.detail in {7, 8})
        || (ec.value.subject == 7 && 23 <= ec.value.detail <= 27))
  }

  function ClassifyPermanent(w: Wording, t: string): Class {
    var ec := w.enhanced(t);
    var mailbox := w.mailbox(t);
    var named := w.namesUs(t) && Subject(ec) != 1 && Subject(ec) != 2;
    var sender := w.senderHint(t) || named;
    var sending := w.sendingQuota(t);
    if SenderCode(ec) then Policy
    else if sender && !mailbox then Policy
    else if w.overQuota(t) && sending && (ec.None? || Subject(ec) == 7) then Policy
    else if w.overQuota(t) && !sending && (ec.None? || Subject(ec) == 2) then Valid
    else if Subject(ec) == 1 then Invalid
    else if Subject(ec) == 2 then (if ec.value.detail == 2 then Valid else Invalid)
    else if Subject(ec) == 4 || Subject(ec) == 7 then (if mailbox then Invalid else Policy)
    else if mailbox then Invalid
    else if sender then Policy
    else Invalid
  }

  /** The single place where a code becomes a meaning. A peer that does not speak SMTP never
      condemns an address, and neither does a temporary reply. */
  function Classify(w: Wording, r: Reply): (c: Class)
    ensures c == Invalid ==> 500 <= r.code <= 599
    ensures c == Valid ==> 200 <= r.code <= 299 || 500 <= r.code <= 599
    ensures c !in {Timeout, ConnError, Guarded, NoBudget, Paused, IPBurned, Suppressed, TLSFailed}
  {
    if r.code < 200 || r.code > 599 then Unknown
    else if w.greylist(r.text) then Deferred
    else if 400 <= r.code < 500 && w.tlsDemand(r.text) then Policy
    else if r.code == 421 then Throttled
    else if r.code == 503 then BadSequence
    else if r.code < 300 then Valid
    else if 400 <= r.code < 500 then (if w.throttle(r.text) then Throttled else Deferred)
    else if r.code < 400 then Unknown
    else ClassifyPermanent(w, r.text)
  }

  /** A reply that refused the session before any RCPT: whatever its prose says, it is never a
      verdict on a mailbox. */
  function BeforeRcpt(w: Wording, r: Reply): (c: Class)
    ensures !IsVerdict(c)
    ensures IsVerdict(Classify(w, r)) ==> (c == Policy <==> 500 <= r.code <= 599)
  {
    var c := Classify(w, r);
    if !IsVerdict(c) then c
    else if 500 <= r.code <= 599 then Policy
    else Unknown
  }

  predicate RelayRefusal(w: Wording, r: Reply) {
    r.code >= 400 && w.relay(r.text)
  }

  predicate DomainLimitRefusal(w: Wording, r: Reply) {
    r.code >= 400 && (w.domainLimit(r.text) || (r.code < 500 && w.enhanced(r.text) == Some(Enhanced(4, 3, 0))))
  }

  // ---------------------------------------------------------------- retry hints

  const MIN_RETRY_HINT := 60
  const MAX_RETRY_HINT := 21600

  function ClampHint(d: int): (s: int)
    ensures MIN_RETRY_HINT <= s <= MAX_RETRY_HINT
  {
    if d < MIN_RETRY_HINT then MIN_RETRY_HINT else if d > MAX_RETRY_HINT then MAX_RETRY_HINT else d
  }

  /** Seconds to wait before asking again; 0 when the class is an answer or a refusal that waiting
      does not change. */
  function RetryHint(w: Wording, c: Class, text: string, fallback: int): (s: int)
    ensures s == 0 || MIN_RETRY_HINT <= s <= MAX_RETRY_HINT
    ensures IsVerdict(c) ==> s == 0
  {
    if c !in {Deferred, Throttled, NoBudget, Paused, TLSFailed} then 0
    else
      match w.retryAfter(text)
      case Some(d) => ClampHint(d)
      case None => ClampHint(fallback)
  }

  // ---------------------------------------------------------------- results

  datatype TLSOutcome = NoSession | Plain | Verified | Unverified | FailedTLS | Fallback | Skipped

  /** What the session established about one address. `None` is not `Some(false)`: the server never
      gave a usable answer. */
  datatype Result = Result(
    connected: Option<bool>,
    accepted: Option<bool>,
    catchAll: Option<bool>,
    randomiser: Option<bool>,
    code: int,
    kind: Class,
    reply: string,
    retryAfter: int,
    tls: TLSOutcome)

  /** A result that says nothing about the mailbox. */
  predicate NonAnswer(r: Result) {
    r.connected == Some(false) && r.accepted.None? && !IsVerdict(r.kind)
  }

  /** `accepted` is set exactly for a verdict, and agrees with it. */
  predicate Consistent(r: Result) {
    && (r.accepted == Some(true) <==> r.kind == Valid)
    && (r.accepted == Some(false) <==> r.kind == Invalid)
  }

  /** One RCPT reply as a result. */
  function RcptResult(w: Wording, r: Reply, fallback: int): (res: Result)
    ensures Consistent(res)
  {
    var c := Classify(w, r);
    var accepted := match c case Valid => Some(true) case Invalid => Some(false) case _ => None;
    Result(Some(true), accepted, None, None, r.code, c, r.text, RetryHint(w, c, r.text, fallback), NoSession)
  }

  /** A refusal of a foreign domain as relay answered about our question, not the mailbox. */
  function RelayResult(w: Wording, r: Reply, fallback: int): (res: Result)
    ensures res.kind == Policy && Consistent(res)
  {
    RcptResult(w, r, fallback).(kind := Policy, accepted := None, retryAfter := 0)
  }
}
