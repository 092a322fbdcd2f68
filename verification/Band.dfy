/** The working range of one receiving system. */
module Band {
  datatype Band = Band(minRate: real, maxRate: real, minConc: int, maxConc: int,
                       burst: real, cooldown: int, pause: int, pauseAlt: int)

  const CONSERVATIVE := Band(0.1, 0.5, 1, 1, 1.0, 300, 600, 0)

  /** A range the loop can work in. */
  predicate Normal(b: Band) {
    && 0.0 < b.minRate <= b.maxRate
    && 1 <= b.minConc <= b.maxConc
    && b.burst > 0.0 && b.cooldown > 0 && b.pause > 0
  }

  function Normalise(given: Band): (r: Band)
    ensures Normal(r)
    ensures Normal(given) ==> r == given
    ensures given.maxRate > 0.0 ==> r.maxRate == given.maxRate
    ensures given.maxRate <= 0.0 ==> r.maxRate == CONSERVATIVE.maxRate
    ensures given.minConc >= 1 ==> r.minConc == given.minConc
    ensures r.maxConc != given.maxConc ==> r.maxConc == r.minConc
  {
    var b := if given.pause == 0 then given.(pause := given.pauseAlt) else given;
    var b := if b.maxRate <= 0.0 then b.(maxRate := CONSERVATIVE.maxRate) else b;
    var b := if b.minRate <= 0.0 || b.minRate > b.maxRate then
               b.(minRate := if CONSERVATIVE.minRate < b.maxRate then CONSERVATIVE.minRate else b.maxRate)
             else b;
    var b := if b.minConc <= 0 then b.(minConc := 1) else b;
    var b := if b.maxConc < b.minConc then b.(maxConc := b.minConc) else b;
    var b := if b.burst <= 0.0 then b.(burst := 1.0) else b;
    var b := if b.cooldown <= 0 then b.(cooldown := CONSERVATIVE.cooldown) else b;
    if b.pause <= 0 then b.(pause := CONSERVATIVE.pause) else b
  }
}
