/**
 * Values shared by the election state machine: Java `long` terms with their
 * two's-complement wrap-around, the node roles, vote responses, the timing
 * constants of the elector and the abstract state of a one-shot timer.
 */
module ElectionTypes {

  datatype Option<+T> = None | Some(value: T)

  const LONG_MIN: int := -0x8000_0000_0000_0000
  const LONG_MAX: int := 0x7fff_ffff_ffff_ffff

  /** A Java `long`: terms are held in an AtomicLong and compared as longs. */
  type Long = x: int | LONG_MIN <= x <= LONG_MAX

  /**
   * `x + 1` on a Java `long` (also what `AtomicLong.incrementAndGet` does):
   * the value congruent to x + 1 modulo 2^64 within the long range.
   */
  function LongInc(x: Long): (r: Long)
    ensures (r - (x + 1)) % 0x1_0000_0000_0000_0000 == 0
    ensures x < LONG_MAX ==> r == x + 1
  {
    if x == LONG_MAX then LONG_MIN else x + 1
  }

  /** Upper bound (exclusive) of the random election delay, in milliseconds. */
  const MAX_ELECTION_TIMEOUT: nat := 300
  /** Seeds the delay generator; no delay is ever drawn against it as a lower bound. */
  const MIN_ELECTION_TIMEOUT: nat := 150
  /** Fixed delay of the heartbeat timer, in milliseconds. */
  const HEART_BEAT_INTERVAL: nat := 80

  datatype Role = Follower | PreCandidate | Candidate | Leader

  datatype VoteResult = Agree | Reject

  /** A (pre-)vote answer from a peer: the term it answers for, its verdict and who gave it. */
  datatype VoteResp = VoteResp(term: Long, result: VoteResult, voteMemberId: string)

  /**
   * A one-shot timer holder as seen by the elector: not yet created, armed to
   * fire after `delay`, or disarmed (created or cancelled, remembering the last
   * delay so that a plain refresh re-arms with it).
   */
  datatype Timer = Absent | Armed(delay: nat) | Disarmed(delay: nat)

  /** `refresh()`: cancel any pending firing and arm again with the holder's delay. */
  function Refreshed(t: Timer): Timer
    requires !t.Absent?
  {
    Armed(t.delay)
  }

  /** `refresh(delay)`: cancel any pending firing and arm again with a new delay. */
  function RefreshedWith(t: Timer, delay: nat): Timer
    requires !t.Absent?
  {
    Armed(delay)
  }

  /** `cancel()`: prevent a pending firing; the holder keeps its delay. */
  function Cancelled(t: Timer): Timer
    requires !t.Absent?
  {
    Disarmed(t.delay)
  }
}
