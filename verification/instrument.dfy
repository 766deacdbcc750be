/** The two instrument sources. Clock readings, the random draw and the
    meter's reply are inputs: the model sees only what each source computes
    from them. */
module Instrument {
  import opened Wrappers

  /** One measurement: wall-clock seconds and volts. */
  datatype Sample = Sample(time: real, value: real)

  /** The meter's reply to `READ?` was not a number. */
  datatype InstrumentError = UnparsableReply

  /** `randint(lo, hi)`: an integer in the inclusive range lo..hi, chosen by
      the otherwise unconstrained `entropy`. */
  function RandInt(lo: int, hi: int, entropy: nat): (r: int)
    requires lo <= hi
    ensures lo <= r <= hi
  {
    lo + entropy % (hi - lo + 1)
  }

  /** Every value of the range is drawn for some entropy. */
  lemma RandIntCovers(lo: int, hi: int, k: int)
    requires lo <= k <= hi
    ensures RandInt(lo, hi, (k - lo) as nat) == k
  {
  }

  /** The synthetic source: the clock reading and a whole number of volts
      between 1 and 10. */
  function DummyRead(clock: real, entropy: nat): (s: Sample)
    ensures s.time == clock
    ensures 1.0 <= s.value <= 10.0
    ensures s.value == s.value.Floor as real
  {
    Sample(clock, RandInt(1, 10, entropy) as real)
  }

  /** The hardware source: `reply` is the meter's answer parsed as a number
      (`None` when the text is not one), `t0` and `t1` the clock just before
      and just after the query. The timestamp is their midpoint. */
  function HardwareRead(t0: real, t1: real, reply: Option<real>): (r: Result<Sample, InstrumentError>)
    ensures r.Success? <==> reply.Some?
    ensures r.Success? ==> r.value.value == reply.value
    ensures r.Success? ==> r.value.time - t0 == t1 - r.value.time
    ensures r.Success? && t0 <= t1 ==> t0 <= r.value.time <= t1
  {
    match reply
    case None => Failure(UnparsableReply)
    case Some(v) => Success(Sample(0.5 * (t0 + t1), v))
  }
}
