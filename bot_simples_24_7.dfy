/**
 * bot_simples_24_7.py: a plain restart loop around the bot's process. A
 * normal exit ends the loop; an exit with an error is counted and followed by
 * a 5 s pause, and a counted error that brings the count to 10 ends the loop.
 * The count is never reset. An exception in the loop body (while it logs) is
 * caught, followed by a 10 s pause and another pass; Ctrl+C ends the loop.
 */
module BotSimples247 {

  /** `max_restarts`. */
  const MaxRestarts := 10

  /** How one run of the child ended, as run_bot sees it: the child's exit
      status, Ctrl+C while it ran, or an exception while starting or
      reading it. */
  datatype ChildEnd = Exited(code: int) | ChildInterrupted | ChildError

  /** What happened in the loop body after the run, while it logged and
      paused: nothing, Ctrl+C, or an exception. */
  datatype After = Calm | CtrlC | Failure

  /** One pass of main's loop. */
  datatype Pass = Pass(end: ChildEnd, after: After)

  /** Why the loop ended: a normal exit, the restart cap, Ctrl+C, or no
      further pass in the input (the process was stopped from outside). */
  datatype Reason = Normal | CapReached | UserStop | OutOfPasses

  /** run_bot's return value: Ctrl+C in the child reads as a normal exit and
      an exception as status 1. */
  function ReturnCode(e: ChildEnd): (code: int)
    ensures e.ChildInterrupted? ==> code == 0
    ensures e.ChildError? ==> code == 1
    ensures e.Exited? ==> code == e.code
  {
    match e
    case Exited(code) => code
    case ChildInterrupted => 0
    case ChildError => 1
  }

  /** What one pass did: the new count, the pauses, and the reason when the
      pass ended the loop. */
  datatype Turn = Turn(count: nat, sleeps: seq<nat>, stop: bool, reason: Reason)

  /** One pass of the loop body. A nonzero status is counted before anything
      else can go wrong. Ctrl+C in the body stops the loop; an exception in
      the body (while logging, whether or not the cap was reached) is followed
      by a 10 s pause and another pass; otherwise status 0 ends the loop, a
      count of 10 or more ends it, and anything else waits 5 s. */
  function Step(count: nat, p: Pass): Turn
  {
    var next := if ReturnCode(p.end) == 0 then count else count + 1;
    match p.after
    case Calm =>
      if ReturnCode(p.end) == 0 then Turn(count, [], true, Normal)
      else if next >= MaxRestarts then Turn(next, [], true, CapReached)
      else Turn(next, [5], false, Normal)
    case CtrlC => Turn(next, [], true, UserStop)
    case Failure => Turn(next, [10], false, Normal)
  }

  /** The whole loop from a count: how many errors it counted, how many passes
      it took, its pauses and why it stopped. */
  datatype Outcome = Outcome(count: nat, consumed: nat, sleeps: seq<nat>, reason: Reason)

  function Supervise(passes: seq<Pass>, count: nat): (r: Outcome)
    ensures r.consumed <= |passes|
  {
    if passes == [] then Outcome(count, 0, [], OutOfPasses)
    else
      var t := Step(count, passes[0]);
      if t.stop then Outcome(t.count, 1, t.sleeps, t.reason)
      else
        var rest := Supervise(passes[1..], t.count);
        Outcome(rest.count, rest.consumed + 1, t.sleeps + rest.sleeps, rest.reason)
  }

  /** The passes among the first `n` whose run ended with a nonzero status. */
  function ErrorExits(passes: seq<Pass>, n: nat): (r: nat)
    requires n <= |passes|
    ensures r <= n
  {
    if n == 0 then 0
    else ErrorExits(passes, n - 1) + (if ReturnCode(passes[n - 1].end) != 0 then 1 else 0)
  }

  lemma ErrorExitsShift(passes: seq<Pass>, n: nat)
    requires 0 < |passes| && n < |passes|
    ensures ErrorExits(passes, n + 1)
         == (if ReturnCode(passes[0].end) != 0 then 1 else 0) + ErrorExits(passes[1..], n)
  {
    if n > 0 {
      ErrorExitsShift(passes, n - 1);
      assert passes[1..][n - 1] == passes[n];
    }
  }

  /** No pass among the first `n` raised while logging. */
  predicate CalmLogging(passes: seq<Pass>, n: nat)
    requires n <= |passes|
  {
    forall k :: 0 <= k < n ==> !passes[k].after.Failure?
  }

  /** The count is the number of runs that ended with an error. The cap
      ends the loop exactly on a run that ended with an error, logged
      calmly, and brought the count to 10 or more. Unless logging raised,
      the count never exceeds 10. */
  lemma {:induction false} SuperviseCounts(passes: seq<Pass>, count: nat)
    ensures var r := Supervise(passes, count);
      && r.count == count + ErrorExits(passes, r.consumed)
      && (r.reason == CapReached <==>
            && r.consumed > 0
            && ReturnCode(passes[r.consumed - 1].end) != 0
            && passes[r.consumed - 1].after == Calm
            && r.count >= MaxRestarts)
      && (count < MaxRestarts && CalmLogging(passes, r.consumed) ==> r.count <= MaxRestarts)
  {
    if passes != [] {
      var t := Step(count, passes[0]);
      if !t.stop {
        var rest := Supervise(passes[1..], t.count);
        SuperviseCounts(passes[1..], t.count);
        SuperviseStops(passes[1..], t.count);
        ErrorExitsShift(passes, rest.consumed);
        if rest.consumed > 0 {
          assert passes[1..][rest.consumed - 1] == passes[rest.consumed];
        }
        if CalmLogging(passes, rest.consumed + 1) {
          assert CalmLogging(passes[1..], rest.consumed) by {
            forall k | 0 <= k < rest.consumed ensures !passes[1..][k].after.Failure? {
              assert passes[1..][k] == passes[k + 1];
            }
          }
        }
      }
    }
  }

  /** The loop ends before the input runs out only on a stopping pass: a
      normal end means the last run exited with status 0 and logged calmly,
      and a user stop means Ctrl+C came in the loop body. */
  lemma {:induction false} SuperviseStops(passes: seq<Pass>, count: nat)
    ensures var r := Supervise(passes, count);
      && (r.reason == OutOfPasses ==> r.consumed == |passes|)
      && (r.reason != OutOfPasses ==> r.consumed > 0)
      && (r.reason == Normal ==>
            r.consumed > 0 && ReturnCode(passes[r.consumed - 1].end) == 0 && passes[r.consumed - 1].after == Calm)
      && (r.reason == UserStop ==> r.consumed > 0 && passes[r.consumed - 1].after == CtrlC)
  {
    if passes != [] {
      var t := Step(count, passes[0]);
      if !t.stop {
        SuperviseStops(passes[1..], t.count);
        var rest := Supervise(passes[1..], t.count);
        if rest.reason != OutOfPasses {
          assert passes[1..][rest.consumed - 1] == passes[rest.consumed];
        }
      }
    }
  }

  /** Every pass that did not end the loop waited once: 5 s after an error
      it logged calmly (below the cap), 10 s after an exception in the loop
      body. */
  lemma {:induction false} SuperviseSleeps(passes: seq<Pass>, count: nat)
    ensures var r := Supervise(passes, count);
      && |r.sleeps| == r.consumed - (if r.reason == OutOfPasses then 0 else 1)
      && forall k :: 0 <= k < |r.sleeps| ==> r.sleeps[k] == (if passes[k].after == Calm then 5 else 10)
  {
    if passes != [] {
      var t := Step(count, passes[0]);
      if !t.stop {
        SuperviseSleeps(passes[1..], t.count);
        var rest := Supervise(passes[1..], t.count);
        var all := t.sleeps + rest.sleeps;
        forall k | 0 <= k < |all| ensures all[k] == (if passes[k].after == Calm then 5 else 10) {
          if k > 0 {
            assert all[k] == rest.sleeps[k - 1];
            assert passes[1..][k - 1] == passes[k];
          }
        }
      }
    }
  }

  /** One pass taken off the front of the remaining passes. */
  lemma SuperviseUnfold(passes: seq<Pass>, i: nat, count: nat, slept: seq<nat>, whole: Outcome)
    requires i < |passes|
    requires var rest := Supervise(passes[i..], count);
      rest.count == whole.count && i + rest.consumed == whole.consumed
      && slept + rest.sleeps == whole.sleeps && rest.reason == whole.reason
    ensures var t := Step(count, passes[i]);
      && (t.stop ==> t.count == whole.count && i + 1 == whole.consumed
                     && slept + t.sleeps == whole.sleeps && t.reason == whole.reason)
      && (!t.stop ==> var rest := Supervise(passes[i + 1..], t.count);
            rest.count == whole.count && i + 1 + rest.consumed == whole.consumed
            && (slept + t.sleeps) + rest.sleeps == whole.sleeps && rest.reason == whole.reason)
  {
    assert passes[i..][0] == passes[i] && passes[i..][1..] == passes[i + 1..];
    var t := Step(count, passes[i]);
    if !t.stop {
      var rest := Supervise(passes[i + 1..], t.count).sleeps;
      assert (slept + t.sleeps) + rest == slept + (t.sleeps + rest);
    }
  }

  /** main over the passes it gets to see. */
  method MainLoop(passes: seq<Pass>) returns (restarts: nat, consumed: nat, reason: Reason, ghost sleeps: seq<nat>)
    ensures var r := Supervise(passes, 0);
      restarts == r.count && consumed == r.consumed && reason == r.reason
    ensures sleeps == Supervise(passes, 0).sleeps
  {
    ghost var whole := Supervise(passes, 0);
    restarts := 0;
    sleeps := [];
    var i := 0;
    while i < |passes|
      invariant i <= |passes|
      invariant var rest := Supervise(passes[i..], restarts);
        rest.count == whole.count && i + rest.consumed == whole.consumed
        && sleeps + rest.sleeps == whole.sleeps && rest.reason == whole.reason
    {
      var p := passes[i];
      SuperviseUnfold(passes, i, restarts, sleeps, whole);
      ghost var t := Step(restarts, p);
      var code := ReturnCode(p.end);
      if code != 0 {
        restarts := restarts + 1;
      }
      assert restarts == t.count;
      match p.after {
        case Calm =>
          if code == 0 {
            assert t.stop && t.reason == Normal && t.sleeps == [];
            consumed, reason := i + 1, Normal;
            return;
          }
          if restarts >= MaxRestarts {
            assert t.stop && t.reason == CapReached && t.sleeps == [];
            consumed, reason := i + 1, CapReached;
            return;
          }
          assert !t.stop && t.sleeps == [5];
          sleeps := sleeps + [5];
        case CtrlC =>
          assert t.stop && t.reason == UserStop && t.sleeps == [];
          consumed, reason := i + 1, UserStop;
          return;
        case Failure =>
          assert !t.stop && t.sleeps == [10];
          sleeps := sleeps + [10];
      }
      i := i + 1;
    }
    consumed, reason := i, OutOfPasses;
  }
}
