/** A run remembered moment by moment: where its orchestrator may die, and what it leaves there. */
module Moments {
  import opened Model
  import opened ControlLog
  import opened StoreHistory
  import opened Board
  import opened Recovery

  /** How much of the log was written, and what was in flight. */
  datatype Moment = Moment(count: nat, flight: Flight)

  /** No transaction of a run in progress writes more than one event. */
  ghost predicate Consecutive(moments: seq<Moment>) {
    forall i | 0 <= i < |moments| - 1 :: moments[i].count <= moments[i + 1].count <= moments[i].count + 1
  }

  /** A scheduler or a worker appends one event or none. */
  lemma OneEventAtMost(log: seq<Event>, c: Command, now: real)
    requires OnNode(c) || c.PutOutbox? || c.FinishRun?
    ensures log <= Step(log, Call(c, now)) && |Step(log, Call(c, now))| <= |log| + 1
  {
    StepFold(log, Call(c, now));
  }

  /** No length of the log between the first and the last moment is skipped. */
  lemma {:induction false} EveryCount(moments: seq<Moment>, n: nat) returns (i: nat)
    requires moments != [] && Consecutive(moments)
    requires moments[0].count <= n <= moments[|moments| - 1].count
    ensures i < |moments| && moments[i].count == n
  {
    if moments[|moments| - 1].count == n {
      return |moments| - 1;
    }
    i := EveryCount(moments[..|moments| - 1], n);
  }

  /** At that moment the scope was in order. */
  ghost predicate InOrder(log: seq<Event>, m: Moment, produce: Production, readings: Readings) {
    m.count <= |log| && SystemOk(Fold(log[..m.count]), produce, readings, Some(m.flight))
  }

  /** From its moment number 0 to the end of the log, the run never left the scope out of order. */
  ghost predicate AlwaysInOrder(log: seq<Event>, moments: seq<Moment>, produce: Production, readings: Readings) {
    && moments != [] && Consecutive(moments) && moments[|moments| - 1].count == |log|
    && forall i | 0 <= i < |moments| :: InOrder(log, moments[i], produce, readings)
  }

  /** With its first `n` events, the log is one of a scope in order. */
  ghost predicate LeftInOrder(log: seq<Event>, n: nat, produce: Production, readings: Readings)
    requires n <= |log|
  {
    exists f :: SystemOk(Fold(log[..n]), produce, readings, Some(f))
  }

  /** Wherever its orchestrator dies, between any two events, the scope is left in order. */
  lemma CrashesAreInOrder(log: seq<Event>, moments: seq<Moment>, produce: Production, readings: Readings, n: nat)
    requires AlwaysInOrder(log, moments, produce, readings) && moments[0].count <= n <= |log|
    ensures LeftInOrder(log, n, produce, readings)
  {
    hide SystemOk, Fold;
    var i := EveryCount(moments, n);
    assert InOrder(log, moments[i], produce, readings);
  }

  /** One more moment, after at most one more event. */
  lemma OneMomentMore(log: seq<Event>, log': seq<Event>, moments: seq<Moment>, m: Moment, produce: Production,
                      readings: Readings)
    requires AlwaysInOrder(log, moments, produce, readings) && log <= log' && |log'| <= |log| + 1
    requires m.count == |log'| && SystemOk(Fold(log'), produce, readings, Some(m.flight))
    ensures AlwaysInOrder(log', moments + [m], produce, readings)
  {
    hide SystemOk, Fold;
    assert log'[..|log'|] == log';
    forall i | 0 <= i < |moments| ensures InOrder(log', moments[i], produce, readings) {
      assert InOrder(log, moments[i], produce, readings);
      assert log'[..moments[i].count] == log[..moments[i].count];
    }
  }
}
