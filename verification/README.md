# Verification of the email verifier's core

A Dafny 4.11 model of the parts of the email verifier where a mistake would be costly: what a probing
session may conclude from an SMTP server, how shared budgets and pauses are kept across nodes, how the
relay's queue hands messages out, and how bytes are framed and canonicalized. `dafny verify dfyconfig.toml`
checks all of it.

The outside world is never assumed to behave. The remote server, the resolver, the pacer, the TLS stack and
the suppression list answer by unconstrained choice inside the prober's methods; the queue's drainers are
interleaved command by command and may crash between any two; the token bucket's callers, the guards of
several nodes and the users of the simulator are arbitrary sequences of calls. Every main result is about
all of those.

## How it is laid out

- **The probing session.** `Replies` (what a reply means), `Dialogue` (a log of everything the prober did, and
  a machine that says which next event is in order), `Grammar` (the verbs of one connection), `CatchAll`,
  `SessionSpec` (what a session owes its caller), `SessionSteps` (how that grows), `Prober` (the session as it
  runs), `RequestSpec`, `Merging`, `Packing` and `Request` (the request around it), `Server` (the simulator's
  session machine, and the two machines run against each other), `Composition` (the pieces put together),
  `Admission` (which requests the API lets through, and what that leaves to go wrong). The
  machine of `Dialogue` has no rule for an event that is out of order, so "the log was orderly" carries the
  lease, token and command discipline: `Request.Probe` promises an orderly log ending at rest that asks only
  about what the query names, and `BudgetAndLease`, `SpentUnderLease`, `AnsweredAttempt` and `VerbsFit` say
  what that means at every moment of it. `Composition.ProbeServer` is a request put to the simulator.
- **The relay queue.** `Relay` (any number of drainers, one Redis command at a time, crashes anywhere),
  `RelayLosses` (what becomes of a message) and `RelayQueue` (the queue of one caller, call by call, over the
  same store commands).
- **The message on the wire.** `Text`, `Transport` (dot-stuffing and the receiver that undoes it), `Dkim`
  (relaxed canonicalization), `Signing` (what is signed, and what a verifier recomputes), `Bufio`, `Resp`
  (the Redis protocol), `Framing` (multi-line SMTP replies).
- **Shared rate control.** `Bucket`, `Family`, `Band`, `Pacing` (the rate loop of one system), `Pacer` (a
  node's tracked systems and the store they are published to), `PacerNode` (the same as it runs),
  `Standdown`.
- **The simulator's limits.** `Engine`.
- `Hosts`, `Wrappers`, `Maps` and `Reals` hold what the others share.

## Where a property the design suggests is not quite true of the code

- The verbs of a connection are not always EHLO [STARTTLS [EHLO]] MAIL RCPT* (RSET MAIL RCPT*)* [RSET QUIT]:
  a RSET answered with something other than 250 is followed by the parting RSET, so RSET RSET QUIT also ends a
  connection (`Grammar.ResetRefused`). That is the only way (`Grammar.StrictExactlyWhen`), and the simulator
  never takes it (`Server.StrictAgainstServer`); a MAIL FROM that is refused stays within the grammar.
- Against the simulator the prober draws a 503 if a profile words its transaction limit as a 250 and allows
  fewer transactions than one session may hold, unless it never lets the prober open one: it demands STARTTLS
  and the prober will not upgrade, or the prober greets it with no name. `Composition.KeepsOrderExactlyWhen`
  shows that this is the only way.
- A transaction can name two recipient domains although every address is of the domain it is listed under:
  a domain listed with white space before it is compared without it, but keeps its spelling in the bogus
  addresses of the group, and the API lets such a request through (`Admission.SpaceBreaksCoherence`).
  `Composition.DomainsApartExactlyWhen` says exactly which queries are safe, and
  `Admission.AdmittedCoheresExactlyWhen` which of those the API lets through: the ones that spell no questioned
  domain so.
- What is signed for a header name is not always what a verifier takes for it. Names are refused only when they
  equal a reserved one, so a header named "from:x" is accepted, is rendered below From and is read as From;
  and a name that begins with white space is read as part of the line above it. `Signing.ColonReads`,
  `Signing.ColonShadows` and `Signing.ColonDiffers` show the first, and
  `Signing.EveryLineSignedExactlyWhen` says exactly when neither happens.
- The pacer's map is held to its cap exactly as long as the empty name is not asked about, or there are no more
  names than the cap: the scan for the least recently used entry uses the empty name for "none yet".
  `Pacer.ScanGivesUp` says exactly when it finds none, `Pacer.NamelessBreaksTheCap` is a run that exceeds the
  cap, for every cap, and `Pacer.CapHoldsExactlyWhen` the rule.
- A bucket whose callers' clocks step back can allow more than one burst and the rate over the span of the
  clock (`Bucket.SteppingBackAllowsMore`). It does not, at any rate and burst, exactly when the clock moved no
  further forward than its span (`Bucket.SpanBoundsExactlyWhen`); the bound that always holds counts every
  forward movement.
- A reset of the simulator forgets an address's open connections, so its connection limit is kept after one
  exactly when none was open (`Engine.LimitKeptExactlyWhen`, `Engine.ResetBreaksTheLimit`).
- Eviction from the pacer's map is not quite lossless: the concurrency is published but never read back, so it is
  kept exactly when it was at its floor or the entry was not evicted (`Pacer.ConcurrencyKeptExactlyWhen`).
- The relay's retry delay doubles only while the shifted base fits in 64 bits (`RelayQueue.DelayDoubles`).

## Model

| member | source | states |
|---|---|---|
| `Replies.Classify` | internal/prober/classify.go:327-442 | an address is condemned only by a code in 500-599 and confirmed only by one in 200-299 or 500-599; no reply is ever classed as one of the prober's own reasons (timeout, no budget, paused, suppressed and so on) |
| `Replies.BeforeRcpt` | internal/prober/prober.go:1394-1403 | a reply that turned the session away before any RCPT is never a verdict, whatever its prose; a permanent one that reads like a verdict is policy |
| `Replies.RetryHint` | internal/prober/retry.go:34-46 | a hint is 0 or between one minute and six hours, and a verdict carries none |
| `Replies.RcptResult` | internal/prober/prober.go:1551-1568 | `accepted` is set exactly for the two verdicts and agrees with them |
| `Replies.RelayResult` | internal/prober/prober.go:1233-1236 | a relay refusal of a further domain is policy and says nothing about the mailbox |
| `Dialogue.TokenLedger` | internal/prober/prober.go:987-991 | conservation over every orderly log: tokens granted are RCPTs sent, real and bogus, plus those forfeited with their lease, plus the credit left |
| `Dialogue.LeaseBudget` | internal/prober/prober.go:987-991 | under each lease by itself RCPTs never exceed tokens: none is sent on a token granted under another lease |
| `Dialogue.LeaseLedger` | internal/prober/prober.go:970-982 | leases taken are leases given back plus the one held |
| `Dialogue.BudgetAndLease` | internal/prober/prober.go:1210-1216 | at every moment of a request RCPTs never exceed tokens, neither in all nor under the lease last taken, and at most one session lease is out |
| `Dialogue.SpentUnderLease` | internal/prober/prober.go:970-991 | every token, dial, handshake and command happens while exactly one lease is held, the plaintext rerun included |
| `Dialogue.AnsweredAttempt` | internal/prober/prober.go:1216-1228 | an answered RCPT was sent inside a transaction whose own MAIL FROM was answered 250, with no RSET or close since |
| `Grammar.VerbsFit` | internal/prober/prober.go:1041-1302 | on every connection, at every moment, the verbs sent form EHLO [STARTTLS [EHLO]] MAIL RCPT* (RSET MAIL RCPT*)* with possibly a further RSET and a parting RSET QUIT |
| `Grammar.StrictExactlyWhen` | internal/prober/prober.go:1041-1302 | without the further RSET, the strict grammar, if and only if leave was not taken after a RSET answered other than 250 |
| `Grammar.ResetRefused` | internal/prober/prober.go:1177-1204 | a log where it was: RSET RSET QUIT goes out |
| `Dialogue.TransactionOf` | internal/prober/prober.go:1177-1221 | an open transaction is for the domain of the MAIL FROM that opened it |
| `CatchAll.SettleMeans` | internal/prober/prober.go:1413-1424 | the verdict read from the counts means: no answer, all accepted, all rejected, or some of each, each an if-and-only-if |
| `CatchAll.EarlyStopRefinesAudit` | internal/prober/prober.go:1329-1359 | stopping at the first rejection agrees with the full audit on honest and catch-all servers, never invents a randomiser, and misses one exactly when it rejects the first question or accepts the first `limit` |
| `SessionSpec.PolicyStopFor` | internal/prober/prober.go:371-384 | the ceiling in force: a request's own clamped to the configured one, never above it, and a request alone never brings it down to one reply |
| `SessionSpec.Unattempted` | internal/prober/prober.go:1162-1167 | what an address left unasked is told never says anything about its mailbox |
| `SessionSpec.Answered` | internal/prober/prober.go:1228-1247 | a verdict is the class of the reply itself, with its code |
| `SessionSpec.TabulateFinished` | internal/prober/prober.go:904-918 | stamping the outcome on the filled map is stamping it on every position |
| `SessionSteps.AccountOfRerun` | internal/prober/prober.go:1097-1116 | the account of the plaintext rerun is the account of the session, failures to connect re-labelled as the upgrade's |
| `Prober.Step` | internal/prober/prober.go:1007-1020 | one command, and whatever reply is next; a failed write or read is a timeout or a connection error |
| `Prober.DialAny` | internal/prober/prober.go:1532-1550 | the vetted addresses are dialled in order, each once, up to the first that answers and no further, under one lease and one unspent token; a fresh connection has sent no verb and is not encrypted |
| `Prober.Connect` | internal/prober/prober.go:941-997 | health, resolver, lease, token, dial: each refusal with its own class, nothing on the log before the lease, and the lease given back by every refusal after it |
| `Prober.Expect` | internal/prober/prober.go:1024-1049 | one command of the opening: goes on only at its code, and otherwise ends as lost or turned away by exactly that reply |
| `Prober.Secure` | internal/prober/prober.go:1059-1132 | the upgrade: nothing is sent where STARTTLS is switched off, given up or not offered; plaintext when refused, a rerun if and only if STARTTLS drew no usable answer or the handshake failed, and TLS reported exactly when the connection is encrypted |
| `Prober.NextTransaction` | internal/prober/prober.go:1177-1204 | RSET then MAIL FROM; a throttle or 421 turns the session away, any other refusal gives grouping up |
| `Prober.BogusAddress` | internal/prober/prober.go:1573-1582 | none for the empty domain; otherwise 24 hexadecimal characters and the domain without its closing dot |
| `Prober.AskRun` | internal/prober/prober.go:1329-1359 | asks at most `limit`, each on a token of its own; the verdict is that of exactly the replies on the log; uninterrupted it is an early-stop run or the whole audit |
| `Prober.AskCatchAll` | internal/prober/prober.go:1315-1373 | asks nothing unless a real address of the domain was accepted, and ends in the state it began in |
| `Prober.SendRcpt` | internal/prober/prober.go:1210-1221 | a token unless the prepaid one is unspent, then one RCPT: answered, lost, or not sent for want of budget |
| `Prober.Weigh` | internal/prober/prober.go:1222-1276 | what a reply means for its address and the session: domain limit hands the address back, relay hands back what follows, a run of policy replies stops |
| `Prober.AskGroup` | internal/prober/prober.go:1205-1276 | the addresses of one domain in order, each at most once, under that domain's transaction |
| `Prober.Turn` | internal/prober/prober.go:1176-1285 | one domain's transaction, its addresses, then its catch-all question |
| `Prober.Transact` | internal/prober/prober.go:1157-1289 | the whole conversation, every exit accounted for; a complete one has a verdict for every domain asked |
| `Prober.WindDown` | internal/prober/prober.go:980-997 | closes what is open and gives the lease back exactly once |
| `Prober.Session` | internal/prober/prober.go:893-1289 | for every reply stream, resolver, pacer and TLS outcome: orderly log ending at rest, addresses asked in order and at most once, only addresses of the groups and only under their own domain, every result that of its own reply or of a justified ending, the rest handed back, which only a grouped session does, at most one MAIL FROM per group on a connection, and STARTTLS only where switched on and offered |
| `RequestSpec.SessionBacked` | internal/prober/prober.go:923-937 | no refusal of us is a verdict: every entry with `accepted` set or a verdict class has behind it that address's own RCPT in an accepted transaction, classified so |
| `RequestSpec.SessionSplits` | internal/prober/prober.go:893-1289 | addresses split exactly into those with a result and a handed-back suffix, disjoint when the addresses are distinct, empty unless grouped, never reaching into the first group; at most one RCPT more than results |
| `Request.Unsuppressed` | internal/prober/prober.go:627-656 | splits the addresses exactly into permitted and suppressed, keeps distinct ones distinct, permits no address more often than it is listed, and leaves other results alone |
| `Merging.MergeGroups` | internal/prober/prober.go:759-780 | one group per domain, spelled as first met and in that order, holding exactly the addresses first listed under it, in order, each once; catch-all wanted exactly when one of the merged groups wanted it |
| `Merging.ListedUnderOne` | internal/prober/prober.go:759-780 | the domain an address is asked under, the first spelling of the domain it is first listed under, is determined by the request |
| `Packing.Chunks` | internal/prober/prober.go:1584-1591 | the chunks in order are the sequence, all but the last full, none empty |
| `Packing.TakeSession` | internal/prober/prober.go:785-799 | batch and rest are the queue; the batch fits the limit, is one group unless grouped, and cannot take the next group |
| `Packing.Regrouped` | internal/prober/prober.go:802-813 | handed-back addresses in order, in groups of their own domain, neighbours of different domains |
| `Request.ProbeDomain` | internal/prober/prober.go:560-622 | results for exactly the addresses, each backed by its reply, suppressed exactly where not permitted; only permitted addresses are asked about, under this domain, no more often than listed; every result carries the one verdict, which was read from this domain's bogus replies or known beforehand, and the question is asked only where wanted |
| `Request.Round` | internal/prober/prober.go:699-725 | one session of the multi-domain loop: the addresses still queued strictly fall in number, nothing queued, told or suppressed is lost, and once grouping was refused or the family has fallen back the session is about one domain; a refusal makes a named family fall back |
| `Request.Drain` | internal/prober/prober.go:699-745 | the loop terminates; every queued address has a result, at most one RCPT more than permitted addresses was sent, no connection saw more MAIL FROMs or more RCPTs for real addresses than a session holds, and STARTTLS was only sent where switched on and offered |
| `Request.ProbeDomains` | internal/prober/prober.go:668-755 | results keyed by exactly the addresses named, suppressed exactly where not permitted; each RCPT for a permitted address under the first spelling of the domain it is first listed under, at most one more than permitted addresses across all sessions, regrouping and reruns; verdicts only of domains whose question was wanted, heard in this request; each mark is its own domain's unless a randomiser condemns the whole server |
| `Request.Probe` | internal/prober/prober.go:548-622 | an error exactly when there is no host or no address, and then nothing done; otherwise results for exactly the addresses named, each verdict backed; only what the query names is asked about, each address under its own domain and none that is suppressed, within the bounds on RCPTs in all and on MAIL FROMs and RCPTs per connection, leaving no lease and no connection; the pace key and the grouping flag are those after the work |
| `Server.Session.Dispatch` | internal/mxsim/smtp/server.go:185-363 | one line changes the session's fields, answers and keeps or drops the connection as the reaction function says |
| `Server.Session.Recipient` | internal/mxsim/smtp/server.go:238-289 | a recipient: out of order, malformed, one domain too many, or put to the policy, with the domains of the transaction remembered |
| `Server.BogusDomain` | internal/mxsim/smtp/server.go:401-413 | a bogus address is filed by the server under the domain it was built for |
| `Server.NeverOutOfOrder` | internal/mxsim/smtp/server.go:185-292 | whatever the policy rules, however addresses are read and wherever the connection is lost, a prober with at most n MAIL FROMs per connection draws no 503 from a server that shows its refusals of a MAIL FROM or allows n |
| `Server.BarredThroughout` | internal/mxsim/smtp/server.go:225-229 | a server that demands STARTTLS of a prober that will not upgrade, or is greeted with no name, never opens a transaction and so is never addressed out of order |
| `Server.StrictAgainstServer` | internal/mxsim/smtp/server.go:185-292 | in every joint run, at every moment, the verbs keep to the strict grammar: this server accepts every RSET it answers |
| `Server.OneDomainPerTransaction` | internal/mxsim/smtp/server.go:238-289 | any two RCPTs, real or bogus, between a MAIL FROM and the RSET or close that ends its transaction are of one recipient domain, where addresses are filed with the domain they are asked under; no limit need be set |
| `Server.CountedThroughout` | internal/mxsim/smtp/server.go:238-289 | the server's own count agrees: where each transaction of a log names one recipient domain it never counts a second and never refuses one for being too many |
| `Server.SpelledAlike` | internal/mxsim/smtp/server.go:401-413 | two spellings of a domain that compare equal and have no white space around them are filed as one |
| `Server.HiddenLimitBreaksOrder` | internal/mxsim/smtp/server.go:229-236 | any other server that answers 250 to a MAIL FROM it refuses draws a RCPT out of order from a prober with one MAIL FROM more than it allows, each for a domain of its own with one address asked about and answered, upgrading exactly when it is configured to and invited |
| `Composition.RequestIsOrderly` | internal/prober/prober.go:970-1302 | at every moment of a whole request no more RCPTs than tokens, in all and under each lease, at most one lease out and the verbs in order; at its end every lease given back |
| `Composition.KeepsOrderExactlyWhen` | internal/mxsim/smtp/server.go:225-236 | of every host, greeting, profile and configuration: no run of any query draws a 503 if and only if no transaction can be opened (no host, no greeting, or STARTTLS demanded and not going to be used) or the server has no transaction limit, does not word it as a 250, or allows as many transactions as one session may hold |
| `Composition.DomainsApartExactlyWhen` | internal/mxsim/smtp/server.go:238-289 | every run of a query keeps each transaction to one recipient domain if and only if there is no host, or the addresses listed under each domain are filed as one, where a session may hold two, and as the bogus ones where its question may be asked |
| `Composition.QueryKeepsDomainsApart` | internal/mxsim/smtp/server.go:238-289 | and then no server ever counts two |
| `Composition.OwnDomainsCohere` | internal/prober/prober.go:759-780 | that is so if every address is of the domain it is listed under and no listed domain has white space around it, however differently they are spelled |
| `Composition.ProbeServer` | internal/prober/prober.go:548-622 | a whole request put to any server, at every moment: strict grammar; no 503 unless the server hides its limit from a prober it lets in; one recipient domain per transaction where the addresses of each domain are filed as one |
| `Admission.AdmitGroup` | internal/api/probe.go:101-116 | one group of a request is let through exactly when its domain is not empty, it has addresses, and each is at the domain, but for case, a closing dot and white space around the domain |
| `Admission.AdmitDomains` | internal/api/probe.go:89-121 | a request is let through exactly when it has groups, each is let through and their addresses together are within the limit |
| `Admission.FiledAsCompared` | internal/mxsim/smtp/server.go:401-413 | the server files an address that was let through exactly as the prober compares the domain it was listed under |
| `Admission.BogusFiled` | internal/mxsim/smtp/server.go:401-413 | but it files the bogus addresses of a domain under its compared form with the white space before its spelling kept |
| `Admission.AdmittedCoheresExactlyWhen` | internal/api/probe.go:101-116 | so of the requests let through, those keep each transaction to one recipient domain that spell no questioned domain with white space before it, and no others |
| `Admission.SpaceBreaksCoherence` | internal/api/probe.go:101-116 | for every plain domain, one that does not: a single group, let through, with a space before its domain |
| `Relay.InvRun` | internal/relay/queue.go:67-192 | every interleaving of single commands by any drainers, crashes anywhere, keeps the placement invariant |
| `Relay.BodiesStored` | internal/relay/queue.go:64-82 | every id ready, waiting or dead has its stored body, at every moment |
| `Relay.OnePlace` | internal/relay/queue.go:168-192 | every id is at most once in all of ready, later, dead and one drainer's hands together |
| `Relay.GivenCounts` | internal/relay/queue.go:86-112 | the count of hand-outs kept beside the store is the number of Next calls in the schedule that returned the id |
| `Relay.AttemptsBounded` | internal/relay/queue.go:120-139 | Next hands an id out at most MaxAttempts times, and a buried one was handed out exactly that often |
| `RelayLosses.Accounted` | internal/relay/queue.go:67-192 | with crashes anywhere: every message accepted is in one of those, or the DEL of Done ran for it, or a drainer crashed with it in hand |
| `RelayLosses.OnlyCrashesLose` | internal/relay/queue.go:168-192 | without a crash every message accepted is in the ready list, the retry set, the dead list or a drainer's hands, until the DEL of Done has run for it |
| `RelayQueue.DelayDoubles` | internal/relay/queue.go:133-134 | the delay doubles with each attempt if and only if the doubled delay fits in 64 bits |
| `RelayQueue.RangeByScore` | internal/relay/queue.go:171-176 | exactly the ids due, each once, earliest first |
| `RelayQueue.PromoteMeans` | internal/relay/queue.go:177-190 | promotion moves exactly those ids to the ready list, earliest due served first and after what was ready already |
| `RelayQueue.TakenMeans` | internal/relay/queue.go:86-112 | Next returns the oldest ready message, else the earliest due, else nothing |
| `RelayQueue.NotBeforeDue` | internal/relay/queue.go:171-192 | over every run of one caller, a message scheduled for retry is neither ready nor handed out before a Next at or after its due time |
| `RelayQueue.PromotedWhenDue` | internal/relay/queue.go:171-192 | a Next at or after the due time does take it out of the retry set |
| `RelayQueue.Queue.constructor` | internal/relay/queue.go:57-62 | an empty queue with the given attempts, or five |
| `RelayQueue.Queue.Enqueue` | internal/relay/queue.go:67-82 | refuses an empty id; otherwise body stored, then id ready |
| `RelayQueue.Queue.Promote` | internal/relay/queue.go:171-192 | the loop promotes exactly what was read, one id at a time |
| `RelayQueue.Queue.Next` | internal/relay/queue.go:86-112 | promotes what is due, pops and returns the oldest ready message, and keeps every waiting id stored and unique |
| `RelayQueue.Queue.Retry` | internal/relay/queue.go:120-139 | one more attempt and the reason recorded; scheduled by the shifted base, or buried at the limit |
| `RelayQueue.Queue.Bury` | internal/relay/queue.go:154-166 | body kept, id on the dead list |
| `RelayQueue.Queue.Done` | internal/relay/queue.go:144-149 | the body is removed and nothing else |
| `Transport.DotStuff` | internal/relay/sender.go:184-197 | the wire form: the lines of the data, stuffed, each ended by CRLF, then the terminator |
| `Transport.SurvivesTransport` | internal/relay/sender.go:184-197 | a receiver following section 4.5.2 of RFC 5321 gets exactly the CRLF-normalised data, stops at the appended terminator and none before it, and is left with exactly what was said next |
| `Transport.WireIsNormal` | internal/relay/sender.go:185-195 | those lines, each ended by CRLF, are the data with every line end made CRLF and one ensured at its end |
| `Text.JoinSplit` | internal/relay/message.go:152-155 | splitting at LF and joining by CRLF is replacing every LF by CRLF |
| `Text.LinesOfEnded` | internal/relay/dkim.go:147-148 | reading lines back from lines ended by CRLF gives those lines and whatever follows, bare CRs included |
| `Dkim.CanonicalizeLine` | internal/relay/dkim.go:149-171 | the flag-and-builder loop computes the recursive reading of section 3.4.4 of RFC 6376 for one line |
| `Dkim.CanonicalizeBody` | internal/relay/dkim.go:146-179 | so does the whole body loop, trailing empty lines and all |
| `Dkim.CanonBodyOnce` | internal/relay/dkim.go:146-179 | body canonicalization is idempotent |
| `Dkim.CanonBodyEmpty` | internal/relay/dkim.go:172-177 | it is empty exactly when every line is blank |
| `Dkim.EmptyEndIgnored` | internal/relay/dkim.go:172-174 | one more empty line at the end changes nothing |
| `Dkim.CanonicalizeValue` | internal/relay/dkim.go:119-139 | the header loop computes section 3.4.2 of RFC 6376: unfolded, trimmed, runs reduced |
| `Dkim.FoldingIsInvisible` | internal/relay/dkim.go:119-139 | replacing any space of a value by CRLF and a tab changes nothing that is signed |
| `Signing.Present` | internal/relay/dkim.go:75-78 | the table holds the lowest instance of every header name |
| `Signing.CoverHeaders` | internal/relay/dkim.go:75-92 | the names listed are those present, in signing order, and the text hashed is that of their lowest instances |
| `Signing.Render` | internal/relay/message.go:134-145 | headers, a blank line, the body |
| `Signing.MessageArrives` | internal/relay/dkim.go:72-110 | off the wire, whatever else is said on the connection, the verifier has the header lines as they were written, below the signature's own, and hashes for the body exactly what the signer hashed |
| `Signing.AddExtra` | internal/relay/message.go:87-93 | the caller's headers go below the service's own, or the message is refused for one that may not be added |
| `Signing.VerifierHashesWhatWasSigned` | internal/relay/dkim.go:72-110 | a verifier that joins folded lines and takes the lowest field of every name in h= takes, for a name, the very line the signer signed if and only if the lowest header read as that name is named so and is not continued; where that is so of all names it hashes what the signer hashed |
| `Signing.EveryLineSignedExactlyWhen` | internal/relay/message.go:46-93 | of a message as it is built: signer and verifier mean the same line for every name h= may list if and only if no header the caller added is read as such a name and the first of them does not begin with white space |
| `Signing.ReadTakesColon` | internal/relay/message.go:87-92 | a header a caller may add is read as a listed name only if its own name has a colon in it |
| `Signing.ColonReads` | internal/relay/message.go:87-92 | a header whose name is a listed name, a colon and anything is accepted and is read as the listed name |
| `Signing.ColonShadows` | internal/relay/message.go:87-92 | below the header of that name the signer signs the one and the verifier takes the other |
| `Signing.ColonDiffers` | internal/relay/message.go:87-92 | and what they hash differs wherever the two values begin differently |
| `Bufio.Reader.ReadString` | internal/redis/resp.go:69-73 | the bytes up to and including the next LF are taken, or the input ended first |
| `Resp.Encode` | internal/redis/resp.go:30-35 | the loop writes the recursive encoding |
| `Resp.ReadValue` | internal/redis/resp.go:65-119 | the recursive reader returns and consumes exactly what the decoding function says, and terminates on every input |
| `Resp.ReadElements` | internal/redis/resp.go:108-116 | so does its loop over array elements |
| `Resp.ReadBulk` | internal/redis/resp.go:122-139 | the payload without its two closing bytes, or end of input |
| `Resp.Bounded` | internal/redis/resp.go:65-119 | whatever the input claims, the value has no more nodes than bytes read and no node deeper than the limit |
| `Resp.DecodeLonger` | internal/redis/resp.go:65-119 | no later input changes a value or an error already read |
| `Resp.CutShort` | internal/redis/resp.go:65-119 | a reply cut short anywhere is end of input, never another reply and never a server error |
| `Resp.RoundTrip` | internal/redis/resp.go:30-119 | decoding an encoded command followed by anything gives the command and leaves exactly what follows, if and only if it is within the limits |
| `Framing.ReplyCode` | internal/prober/classify.go:467-476 | a reply code is three digits in 200-599 |
| `Framing.ReadsCode` | internal/prober/classify.go:467-476 | every code of the protocol is read back from the line it leads, and no other number is read |
| `Framing.ReadReply` | internal/prober/classify.go:489-515 | the loop returns and consumes what the recursive reading says |
| `Framing.ReadsOne` | internal/prober/classify.go:489-515 | a well-formed reply is read to its end however long, with its last line's code, leaving exactly what follows |
| `Framing.KeptText` | internal/prober/classify.go:504-509 | the text kept is that of the first lines: all, or as many as reach the limit |
| `Framing.KeptWhole` | internal/prober/classify.go:504-509 | every line is kept exactly when what precedes the last is short of the limit, and never more than the limit and one line |
| `Framing.StaysInStep` | internal/prober/classify.go:489-515 | n calls on n concatenated replies return exactly those replies in order and leave exactly what follows |
| `Bucket.Store.Run` | internal/limiter/limiter_test.go:27-54 | one draw: refill capped at burst, never for a clock that stepped back, admitted if a token is there, the new level stored |
| `Bucket.Store.Take` | internal/limiter/limiter.go:61-85 | no decision for an empty host, a non-positive rate or burst, or an unreachable store, and then nothing is drawn |
| `Bucket.BalancedRun` | internal/limiter/limiter_test.go:27-54 | over every run, draws allowed and tokens left are at most one burst and the inflow |
| `Bucket.AdmissionBound` | internal/limiter/limiter_test.go:27-54 | whoever draws for whichever hosts of one pace key by whatever clocks, draws allowed are at most one burst and the rate times forward clock movement |
| `Bucket.ForwardIsElapsed` | internal/limiter/limiter_test.go:27-54 | on a clock that never steps back, forward movement is at most elapsed time |
| `Bucket.MovementBreaksTheSpan` | internal/limiter/limiter_test.go:45-52 | the failing half: a clock that moved further has a rate and a burst at which every draw is allowed and the bound exceeded |
| `Bucket.SpanBoundsExactlyWhen` | internal/limiter/limiter_test.go:27-54 | of any readings of the clock: at every rate and burst the draws allowed are at most one burst and the rate over the span of the clock, if and only if the clock did not move further forward than its span |
| `Bucket.SteppingBackAllowsMore` | internal/limiter/limiter_test.go:45-52 | an instance: forward and back and forward over one second, three draws allowed at one a second and a burst of one |
| `Bucket.RetryIsExact` | internal/limiter/limiter_test.go:46-51 | the retry time is the least wait after which the same caller alone is allowed, and with a burst below one there is none |
| `Family.FindPaceKey` | internal/pacer/family.go:84-95 | the scan returns the key of the first family matched, else the host as given |
| `Family.PaceKeyMeans` | internal/pacer/family.go:76-95 | a pace key is one of the table's keys or the host itself, and is its own pace key |
| `Family.LoneHostIsAlone` | internal/pacer/family.go:76-95 | no other host shares the key of a host of no family |
| `Family.MatchesWholeLabels` | internal/pacer/family.go:80-92 | a host matches a suffix exactly when its labels end with the labels of the suffix |
| `Band.Normalise` | internal/pacer/band.go:47-74 | every band becomes one the loop can work in, and one that is already is unchanged |
| `Pacing.Observe` | internal/pacer/pacer.go:393-452 | the entry is updated field by field as specified; paused exactly when throttled at the floor; the proposal formed, if one is |
| `Pacing.KeepsBand` | internal/pacer/pacer.go:404-441 | rate and concurrency stay inside the band, and short of the ceiling fewer than ten clean answers are counted |
| `Pacing.ProposalWithinBounds` | internal/pacer/pacer.go:471-484 | a proposal is above the ceiling it would raise and within the absolute one |
| `Pacing.SlowClimb` | internal/pacer/pacer.go:421-427 | over any n answers the rate grows at most by one tenth for every ten, begun ones included |
| `Pacing.HalvesToFloor` | internal/pacer/pacer.go:405-414 | after k throttles in a row the rate is the old one halved k times, or the floor, exactly |
| `Pacing.PausesAtTheFloor` | internal/pacer/pacer.go:405-419 | the next throttle pauses if and only if k halvings reach the floor |
| `Pacing.EvidenceIsInARow` | internal/pacer/pacer.go:434-440 | a proposal rests on as many clean answers in a row, at the ceiling, as were asked for |
| `Pacer.LoadedInBand` | internal/pacer/pacer.go:549-583 | whatever the store and the band say, a loaded entry is inside its band |
| `Pacer.AlwaysInBand` | internal/pacer/pacer.go:393-651 | so is every tracked entry over every run, whatever other nodes write |
| `Pacer.FaithfulRun` | internal/pacer/pacer.go:609-651 | on a working store, the store always holds what every tracked entry would resume from |
| `Pacer.ResumesWhereItWas` | internal/pacer/pacer.go:549-619 | evicted or not, an entry asked for again under an unchanged band has exactly its rate and its pause to the second |
| `Pacer.ConcurrencyKeptExactlyWhen` | internal/pacer/pacer.go:549-619 | its concurrency is the one it had if and only if that was the floor of the band or the entry was not evicted; an evicted one starts at the floor |
| `Pacer.CutToTheSecond` | internal/pacer/pacer.go:597-618 | the pause resumed is never longer and shorter by less than a second |
| `Pacer.CapHolds` | internal/pacer/pacer.go:226-246 | never more than the cap is tracked as long as no one asks about the empty name |
| `Pacer.ScanGivesUp` | internal/pacer/pacer.go:233-245 | the scan for the least recently used can find none exactly when nothing is tracked or the empty name is, strictly the least recently used |
| `Pacer.NamelessBreaksTheCap` | internal/pacer/pacer.go:233-245 | for every cap and idle time: with the empty name among more names than the cap, some run exceeds it |
| `Pacer.CapHoldsExactlyWhen` | internal/pacer/pacer.go:226-246 | every run that asks about these names keeps to the cap if and only if the empty name is not among them or they are no more than the cap |
| `PacerNode.Node.constructor` | internal/pacer/pacer.go:175-198 | an empty pacer with the defaults filled in |
| `PacerNode.Node.Oldest` | internal/pacer/pacer.go:234-240 | one pass over the tracked entries in any order |
| `PacerNode.Node.Evict` | internal/pacer/pacer.go:226-246 | drops the idle, then the least recently used until below the cap, unless the scan finds none |
| `PacerNode.Node.StateFor` | internal/pacer/pacer.go:549-583 | the tracked entry, or one loaded from the store after making room |
| `PacerNode.Node.Persist` | internal/pacer/pacer.go:611-619 | the rate, and the pause in whole seconds if one was ever set |
| `PacerNode.Node.Observe` | internal/pacer/pacer.go:393-452 | an answer for a tracked key moves its entry and publishes it; for any other nothing happens |
| `PacerNode.Node.PauseKey` | internal/pacer/pacer.go:626-639 | the pause is set in memory if tracked and in the store always |
| `PacerNode.Node.ResumeKey` | internal/pacer/pacer.go:642-651 | the pause is lifted in memory if tracked and in the store always |
| `Standdown.Defaults` | internal/standdown/standdown.go:91-105 | the thresholds in force: at least two hosts, a positive window and pause |
| `Standdown.Guard.Count` | internal/standdown/standdown.go:169-191 | the refusal recorded, the old trimmed, the set's life extended, and its size returned |
| `Standdown.Guard.Observe` | internal/standdown/standdown.go:118-164 | a refusal is ignored, counted, or stands the key down by the rule it met |
| `Standdown.Guard.Resume` | internal/standdown/standdown.go:194-210 | the key's stand-down is forgotten unless the pacer fails, and its refusers too unless the store then does, which is no error |
| `Standdown.CountsTheWindow` | internal/standdown/standdown.go:166-191 | over every run of every node on one clock, the set holds exactly the distinct hosts counted within the window since the key's refusers were last forgotten, and their number decides the rule |
| `Standdown.RuleBNeedsHosts` | internal/standdown/standdown.go:141-149 | rule B is met only by as many distinct hosts as it asks for |
| `Standdown.RuleBNeedsTwo` | internal/standdown/standdown.go:141-149 | two of them refused under the one key within the window |
| `Standdown.RuleBNeedsAFamily` | internal/standdown/standdown.go:9-16 | so rule B is met only under the key of a family of the table: a host of no family never stands itself down by it, whatever it is called |
| `Engine.Prune` | internal/mxsim/policy/engine.go:247-259 | pruning in place leaves the buffer from its first recent time on |
| `Engine.PrunedIsNewer` | internal/mxsim/policy/engine.go:247-259 | on a sorted buffer that is exactly the recent times |
| `Engine.Policy.OnConnect` | internal/mxsim/policy/engine.go:300-347 | a connection is refused in cooldown, over the count or over the rate, or admitted and counted |
| `Engine.Policy.OnDisconnect` | internal/mxsim/policy/engine.go:349-362 | an admitted connection is counted out, never below zero |
| `Engine.Policy.OnRcpt` | internal/mxsim/policy/engine.go:366-407 | a recipient is refused in cooldown, over the count of its connection or over the rate, or passes |
| `Engine.Policy.ResetAll` | internal/mxsim/policy/engine.go:204-212 | addresses are forgotten, the count of open connections is not |
| `Engine.SlidingWindow` | internal/mxsim/policy/engine.go:401-407 | over every forward run without a reset no window holds more recipients of one address that passed the rate rule than it counts |
| `Engine.CurrentIsLive` | internal/mxsim/policy/engine.go:341-361 | over every run, resets included, the count of open connections is the number admitted and not yet disconnected |
| `Engine.ActiveIsLive` | internal/mxsim/policy/engine.go:320-361 | so is each address's, and it keeps to the limit, as long as no reset comes under an open connection |
| `Engine.ResetBreaksTheLimit` | internal/mxsim/policy/engine.go:204-212 | every run with a reset under an open connection goes on to exceed the limit, whatever the connection rate |
| `Engine.LimitKeptExactlyWhen` | internal/mxsim/policy/engine.go:204-212 | after any reset, whatever resets came before it, every continuation that resets only while the address is idle keeps its limit if and only if the address had no connection open at that reset |

## Left out

- Regular expressions, hint lists and the parsing of retry hints: predicates and functions of the reply text, any whatever.
- Sockets, deadlines, contexts, certificates, RSA and SHA-256: outcomes chosen arbitrarily, or not part of this model.
- `token_bucket.lua`, `lease.lua` and the family and band files are not part of this model: the bucket is the arithmetic of `fakeStore.Run`, leases are the prober's discipline of taking and giving them back, the family table is any whose keys begin with an at sign, and a band is any.
- Text fields that explain a result to a person (`Err`, the enhanced code), metrics, logging, health counters and the pacer's observe and refusal hooks inside the prober.
- Concurrent requests of one prober: they reach a request only as families that may fall back at any moment.
- A pacer without session leases, and a session whose lease outlives its time to live.
- Server.Session.Dispatch: takes a line already divided into verb and argument, so syntax errors of `FROM:` and `TO:` and the splitting of the verb are not modelled; the prober never sends such a line.
- Relay.AttemptsBounded: message ids are new when accepted and start with no attempts, as `Accept` makes them with a random token; a caller that re-enqueues an id is not modelled.
- RelayQueue.NotBeforeDue: stated for one caller, because with several an id rescheduled between another drainer's read and its removal can be promoted early.
- Which delivery outcomes retry and which delete (`internal/relay/relay.go`): the queue's properties do not depend on it.
- Dkim.CanonicalizeLine: text is a sequence of characters; a byte that is not valid UTF-8, which the source writes back as U+FFFD, is not modelled.
- Signing.VerifierHashesWhatWasSigned: the canonical form of the signature's own header, with its b= tag emptied, and the hash are not modelled.
- Signing.MessageArrives: header names and values are on one line, as the message's validation demands of them; the rest of that validation, encoded subjects and multipart bodies are not modelled.
- Admission.AdmittedCoheresExactlyWhen: the several-domain shape of a request, with domains that are plain names but for white space and a dot around them, and addresses with no ">" before their "@"; the single-domain shape takes addresses of any domain and is covered by `Composition.DomainsApartExactlyWhen` alone.
- Bucket.RetryIsExact: rates and times are reals, so the rounding of floating point and the cut of the retry time to a nanosecond are not modelled; nor is the expiry of bucket keys.
- Pacer.FaithfulRun: one node on a working store; races between two nodes publishing the same key are not modelled, and a widened band reaches the model as whatever band the next request reads.
- Pacer.ResumesWhereItWas: the count of clean answers and the phase start afresh after an eviction, and nothing is claimed of them beyond the band.
- Standdown.CountsTheWindow: the four Redis commands of a count are one step, the store either answers all of them or none, and all nodes share one clock in whole milliseconds.
- Engine.Policy.OnRcpt: what follows the rate rule (relay denial, chaos, greylisting, mailbox behaviour), the statistics and hot-swapped profiles are not modelled; times are kept in sequences there, and pruning in place is `Engine.Prune`.
- The rest of the HTTP API, configuration, the resolver's address table, the suppression list's contents, IP health and systemd notification: plumbing or single-branch facts.
