/** What the outside world does to a connection beside answering: a finite schedule of decisions, and a record of what
    it did that only the members standing for the outside world ever change.
 */
module Outside {

  /** choices are the decisions still to come, in order, each asked for once; when they are used up every further
      question is answered with no.  The counters record waits that failed and cancellations, operations that their
      caller gave up, failing calls, hard read errors, reads that returned nothing, connections that an error report
      dropped, and connections that were found lost when they were first used again; lost is the number of failing calls
      when such a connection was last given up to be replaced.  starved counts the read errors at the end of a file that
      was still expected to go on when the decisions were used up.
   */
  datatype Record = Record(
    choices: seq<bool>, interruptions: nat, givenUp: nat, failures: nat, readErrors: nat, emptyReads: nat, drops: nat,
    losses: nat, lost: nat, starved: nat)

  function Begin(choices: seq<bool>): Record {
    Record(choices, 0, 0, 0, 0, 0, 0, 0, 0, 0)
  }

  function First(choices: seq<bool>): bool {
    choices != [] && choices[0]
  }

  function Rest(choices: seq<bool>): seq<bool> {
    if choices == [] then [] else choices[1..]
  }

  function Count(yes: bool): nat {
    if yes then 1 else 0
  }

  /** Decisions are used up and counters grow; without decisions left nothing happens, except that a caller gives up or
      a read at the end of a file fails, or that a connection that failed before is replaced.
   */
  predicate Grown(a: Record, b: Record) {
    && |b.choices| <= |a.choices| && a.interruptions <= b.interruptions && a.failures <= b.failures
    && a.readErrors <= b.readErrors && a.emptyReads <= b.emptyReads && a.drops <= b.drops
    && a.losses <= b.losses && (b.lost == a.lost || a.failures <= b.lost <= b.failures)
    && 0 <= b.starved - a.starved <= b.readErrors - a.readErrors
    && (a.choices == [] ==>
          && b == a.(readErrors := b.readErrors, givenUp := b.givenUp, lost := b.lost, starved := b.starved)
          && b.starved - a.starved == b.readErrors - a.readErrors)
  }

  /** One record can follow another while a call runs, which only its caller could give up. */
  predicate Later(a: Record, b: Record) {
    Grown(a, b) && a.givenUp == b.givenUp
  }

  /** One record can follow another over several calls. */
  predicate Since(a: Record, b: Record) {
    Grown(a, b) && a.givenUp <= b.givenUp
  }

  /** Nothing but decisions was used up. */
  predicate Passed(a: Record, b: Record) {
    b == a.(choices := b.choices) && |b.choices| <= |a.choices|
  }

  /** Nothing but decisions was used up, and calls failed. */
  predicate OnlyFailed(a: Record, b: Record) {
    Later(a, b) && b == a.(choices := b.choices, failures := b.failures)
  }

  /** A wait and the teardown it causes when it fails. */
  predicate Waited(a: Record, b: Record, failed: bool) {
    && Later(a, b)
    && b == a.(choices := b.choices, failures := b.failures, interruptions := a.interruptions + Count(failed))
    && (!failed ==> Passed(a, b))
  }

  /** At least one decision was used up, for an EAGAIN result. */
  predicate Fewer(a: Record, b: Record) {
    |b.choices| < |a.choices|
  }

  /** No wait failed, nothing was cancelled, and no call failed. */
  predicate Undisturbed(a: Record, b: Record) {
    a.interruptions == b.interruptions && a.failures == b.failures
  }

  /** A wait failed, something was cancelled, or the caller gave the operation up. */
  predicate Stopped(a: Record, b: Record) {
    a.interruptions < b.interruptions || a.givenUp < b.givenUp
  }

  /** Nothing was stopped, no read failed for good, and no call failed after the first so many. */
  predicate SmoothFrom(a: Record, b: Record, failures: nat) {
    !Stopped(a, b) && b.failures == failures && a.readErrors == b.readErrors
  }

  /** Nothing was stopped and nothing failed. */
  predicate Smooth(a: Record, b: Record) {
    SmoothFrom(a, b, a.failures)
  }

  /** The next n decisions are no. */
  predicate Calm(choices: seq<bool>, n: nat)
    decreases n
  {
    n == 0 || (choices != [] && !choices[0] && Calm(choices[1..], n - 1))
  }

  /** The decisions after the next n. */
  function Skip(choices: seq<bool>, n: nat): seq<bool>
    decreases n
  {
    if n == 0 then choices else Skip(Rest(choices), n - 1)
  }

  /** Schedules in which the next call fails at once, and the question after that is answered with yes. */
  predicate FailsAndYes(choices: seq<bool>) {
    Calm(choices, 1) && First(Rest(choices)) && First(Skip(choices, 2))
  }

  /** n decisions that are no. */
  function Silence(n: nat): seq<bool> {
    if n == 0 then [] else [false] + Silence(n - 1)
  }

  lemma {:induction false} SilenceIsCalm(m: nat, n: nat, rest: seq<bool>)
    requires m <= n
    ensures Calm(Silence(n) + rest, m) && Skip(Silence(n) + rest, m) == Silence(n - m) + rest
    decreases m
  {
    if m > 0 {
      assert (Silence(n) + rest)[1..] == Silence(n - 1) + rest;
      SilenceIsCalm(m - 1, n - 1, rest);
    }
  }

  /** Schedules in which, after n decisions, a call reports EAGAIN and the wait for it fails. */
  predicate WaitFails(choices: seq<bool>, n: nat) {
    Calm(choices, n) && First(Skip(choices, n)) && First(Rest(Skip(choices, n)))
  }
}
