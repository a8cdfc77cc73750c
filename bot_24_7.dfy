/**
 * bot_24_7.py: BotRunner, a supervisor that keeps the bot's process alive.
 * While the child runs it only waits; when the child is gone it restarts it,
 * within a budget of 10 restarts per window, and the window starts over only
 * once more than an hour has passed since it began.
 */
module Bot247 {
  import opened Common

  /** `self.max_restarts_per_hour`. */
  const MaxRestartsPerHour := 10
  /** The window, in seconds: a reset needs strictly more than this. */
  const Hour := 3600

  /** A child process started by the supervisor. */
  datatype Child = Child(pid: nat)

  /** What `subprocess.Popen` did when asked to start the bot. */
  datatype Launch = Launched(pid: nat) | LaunchFailed

  /** What one pass of the loop sees: the clock (`time.time()`, in whole
      seconds), what `process.poll()` answers (None while the child runs),
      and what a start in this pass would give. */
  datatype Tick = Tick(now: int, polled: Option<int>, launch: Launch)

  /** The supervisor's fields. */
  datatype Supervisor = Supervisor(process: Option<Child>, restartCount: nat, lastRestartTime: int)

  /** What one pass of the loop did: waited 10 s beside a running child,
      restarted it (waiting 5 s after a start, 30 s after a failed one), or
      gave up because the budget was spent. */
  datatype Step = Watching | Restarted(started: bool) | GaveUp

  /** is_bot_running: false with no child or when poll() returned a code. */
  function Running(s: Supervisor, polled: Option<int>): (r: bool)
    ensures !r <==> s.process.None? || polled.Some?
  {
    s.process.Some? && polled.None?
  }

  /** should_restart: a new window (count 0, start now) only when strictly
      more than an hour has passed since the window started; then the
      answer is whether the count is below the budget. */
  function Window(s: Supervisor, now: int): (r: (Supervisor, bool))
    ensures now - s.lastRestartTime > Hour ==> r.0.restartCount == 0 && r.0.lastRestartTime == now
    ensures now - s.lastRestartTime <= Hour ==> r.0 == s
    ensures r.0.process == s.process
    ensures r.1 <==> r.0.restartCount < MaxRestartsPerHour
  {
    var t := if now - s.lastRestartTime > Hour then s.(restartCount := 0, lastRestartTime := now) else s;
    (t, t.restartCount < MaxRestartsPerHour)
  }

  /** start_bot: the new child on success; on failure the old handle stays. */
  function Start(s: Supervisor, launch: Launch): (r: (Supervisor, bool))
    ensures r.1 <==> launch.Launched?
    ensures r.1 ==> r.0.process == Some(Child(launch.pid))
    ensures !r.1 ==> r.0.process == s.process
    ensures r.0.restartCount == s.restartCount && r.0.lastRestartTime == s.lastRestartTime
  {
    match launch
    case Launched(pid) => (s.(process := Some(Child(pid))), true)
    case LaunchFailed => (s, false)
  }

  /** One pass of run's loop. No restart while the child runs; a restart
      is counted only after should_restart said yes; the window start moves
      only on a window reset. */
  function StepTick(s: Supervisor, tick: Tick): (r: (Supervisor, Step))
    ensures Running(s, tick.polled) ==> r == (s, Watching)
    ensures r.1.Restarted? ==> !Running(s, tick.polled) && Window(s, tick.now).1
    ensures r.1.Restarted? ==> r.0.restartCount == Window(s, tick.now).0.restartCount + 1
    ensures r.1 == GaveUp <==> !Running(s, tick.polled) && !Window(s, tick.now).1
    ensures s.restartCount <= MaxRestartsPerHour ==> r.0.restartCount <= MaxRestartsPerHour
    ensures r.0.lastRestartTime != s.lastRestartTime ==>
      tick.now - s.lastRestartTime > Hour && r.0.lastRestartTime == tick.now && !Running(s, tick.polled)
  {
    if Running(s, tick.polled) then (s, Watching)
    else
      var w := Window(s, tick.now);
      if !w.1 then (w.0, GaveUp)
      else
        var counted := w.0.(restartCount := w.0.restartCount + 1);
        var started := Start(counted, tick.launch);
        (started.0, Restarted(started.1))
  }

  /** The loop over the passes it gets to see: it stops after the pass that
      gives up, or when no pass is left (the runner was interrupted). */
  function Simulate(s: Supervisor, ticks: seq<Tick>): (r: (Supervisor, seq<Step>))
    ensures |r.1| <= |ticks|
    decreases |ticks|
  {
    if ticks == [] then (s, [])
    else
      var (next, step) := StepTick(s, ticks[0]);
      if step == GaveUp then (next, [GaveUp])
      else
        var rest := Simulate(next, ticks[1..]);
        (rest.0, [step] + rest.1)
  }

  /** The wait that follows each step. */
  function Sleeps(steps: seq<Step>): (r: seq<nat>)
    ensures |r| <= |steps|
    ensures forall k :: 0 <= k < |r| ==> r[k] in {5, 10, 30}
  {
    if steps == [] then []
    else
      var head := match steps[0]
        case Watching => [10]
        case Restarted(started) => if started then [5] else [30]
        case GaveUp => [];
      head + Sleeps(steps[1..])
  }

  /** The wait that follows one step. */
  lemma SleepsOne(step: Step)
    ensures Sleeps([step]) == match step
      case Watching => [10]
      case Restarted(started) => if started then [5] else [30]
      case GaveUp => []
  {
    assert [step][1..] == [];
  }

  /** The wait of one more step comes after the waits so far. */
  lemma SleepsAppend(steps: seq<Step>, step: Step)
    ensures Sleeps(steps + [step]) == Sleeps(steps) + Sleeps([step])
  {
    if steps != [] {
      assert (steps + [step])[1..] == steps[1..] + [step];
      SleepsAppend(steps[1..], step);
    }
  }

  /** The restart count never exceeds the budget. */
  lemma {:induction false} SimulateBounded(s: Supervisor, ticks: seq<Tick>)
    requires s.restartCount <= MaxRestartsPerHour
    ensures Simulate(s, ticks).0.restartCount <= MaxRestartsPerHour
    decreases |ticks|
  {
    if ticks != [] {
      var (next, step) := StepTick(s, ticks[0]);
      if step != GaveUp {
        SimulateBounded(next, ticks[1..]);
      }
    }
  }

  /** Only the last step can give up, and a run cut short gave up. */
  lemma {:induction false} SimulateStops(s: Supervisor, ticks: seq<Tick>)
    ensures var r := Simulate(s, ticks);
      && (forall k :: 0 <= k < |r.1| - 1 ==> r.1[k] != GaveUp)
      && (|r.1| < |ticks| ==> r.1 != [] && r.1[|r.1| - 1] == GaveUp)
    decreases |ticks|
  {
    if ticks != [] {
      var (next, step) := StepTick(s, ticks[0]);
      if step != GaveUp {
        SimulateStops(next, ticks[1..]);
      }
    }
  }

  /** The window start only ever takes the time of a pass that reset it. */
  lemma {:induction false} SimulateWindowStart(s: Supervisor, ticks: seq<Tick>)
    ensures var last := Simulate(s, ticks).0.lastRestartTime;
      last == s.lastRestartTime || exists k :: 0 <= k < |ticks| && last == ticks[k].now
    decreases |ticks|
  {
    if ticks != [] {
      var (next, step) := StepTick(s, ticks[0]);
      if step != GaveUp {
        SimulateWindowStart(next, ticks[1..]);
        var last := Simulate(next, ticks[1..]).0.lastRestartTime;
        if last != next.lastRestartTime {
          var k :| 0 <= k < |ticks[1..]| && last == ticks[1..][k].now;
          assert last == ticks[k + 1].now;
        } else if next.lastRestartTime != s.lastRestartTime {
          assert last == ticks[0].now;
        }
      }
    }
  }

  /** One pass of Simulate taken off the front of the remaining passes. */
  lemma SimulateUnfold(s: Supervisor, ticks: seq<Tick>, i: nat, done: seq<Step>, all: seq<Step>)
    requires i < |ticks|
    requires done + Simulate(s, ticks[i..]).1 == all
    ensures var (next, step) := StepTick(s, ticks[i]);
      && (step == GaveUp ==> Simulate(s, ticks[i..]) == (next, [GaveUp]) && done + [GaveUp] == all)
      && (step != GaveUp ==> Simulate(s, ticks[i..]).0 == Simulate(next, ticks[i + 1..]).0
                             && (done + [step]) + Simulate(next, ticks[i + 1..]).1 == all)
  {
    assert ticks[i..][0] == ticks[i] && ticks[i..][1..] == ticks[i + 1..];
    var (next, step) := StepTick(s, ticks[i]);
    if step != GaveUp {
      var rest := Simulate(next, ticks[i + 1..]).1;
      assert (done + [step]) + rest == done + ([step] + rest);
    }
  }

  class BotRunner {
    var process: Option<Child>
    var running: bool
    var restartCount: nat
    var lastRestartTime: int
    /** The waits of the loop, in seconds. */
    ghost var sleeps: seq<nat>

    function State(): Supervisor
      reads this
    {
      Supervisor(process, restartCount, lastRestartTime)
    }

    /** The window starts at the clock's time of creation. */
    constructor (now: int)
      ensures process.None? && running && restartCount == 0 && lastRestartTime == now && sleeps == []
    {
      process := None;
      running := true;
      restartCount := 0;
      lastRestartTime := now;
      sleeps := [];
    }

    function IsBotRunning(polled: Option<int>): (r: bool)
      reads this
      ensures r == Running(State(), polled)
    {
      process.Some? && polled.None?
    }

    method ShouldRestart(now: int) returns (ok: bool)
      modifies this
      ensures (State(), ok) == Window(old(State()), now)
      ensures running == old(running) && sleeps == old(sleeps)
    {
      if now - lastRestartTime > Hour {
        restartCount := 0;
        lastRestartTime := now;
      }
      ok := restartCount < MaxRestartsPerHour;
    }

    method StartBot(launch: Launch) returns (ok: bool)
      modifies this
      ensures (State(), ok) == Start(old(State()), launch)
      ensures running == old(running) && sleeps == old(sleeps)
    {
      match launch {
        case Launched(pid) =>
          process := Some(Child(pid));
          ok := true;
        case LaunchFailed =>
          ok := false;
      }
    }

    /** stop_bot: whatever happens while stopping, the handle is dropped. */
    method StopBot()
      modifies this
      ensures process.None?
      ensures restartCount == old(restartCount) && lastRestartTime == old(lastRestartTime)
      ensures running == old(running) && sleeps == old(sleeps)
    {
      process := None;
    }

    /** run over the passes it gets to see, then stop_bot in `finally`. */
    method Run(ticks: seq<Tick>) returns (ghost steps: seq<Step>)
      requires running
      modifies this
      ensures steps == Simulate(old(State()), ticks).1
      ensures State() == Simulate(old(State()), ticks).0.(process := None)
      ensures sleeps == old(sleeps) + Sleeps(steps)
    {
      steps := [];
      ghost var whole := Simulate(State(), ticks);
      ghost var sleeps0 := sleeps;
      var i := 0;
      while running && i < |ticks|
        invariant i <= |ticks| && running
        invariant Simulate(State(), ticks[i..]).0 == whole.0
        invariant steps + Simulate(State(), ticks[i..]).1 == whole.1
        invariant sleeps == sleeps0 + Sleeps(steps)
        decreases |ticks| - i
      {
        var tick := ticks[i];
        ghost var before := State();
        ghost var st := StepTick(before, tick);
        SimulateUnfold(before, ticks, i, steps, whole.1);
        SleepsAppend(steps, st.1);
        SleepsOne(st.1);
        Assoc(sleeps0, Sleeps(steps), Sleeps([st.1]));
        if !IsBotRunning(tick.polled) {
          var ok := ShouldRestart(tick.now);
          if ok {
            restartCount := restartCount + 1;
            var started := StartBot(tick.launch);
            if started {
              sleeps := sleeps + [5];
            } else {
              sleeps := sleeps + [30];
            }
            steps := steps + [Restarted(started)];
          } else {
            steps := steps + [GaveUp];
            break;
          }
        } else {
          sleeps := sleeps + [10];
          steps := steps + [Watching];
        }
        assert State() == st.0;
        i := i + 1;
      }
      StopBot();
    }
  }
}
