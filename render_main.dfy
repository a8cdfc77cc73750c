/**
 * render_main.py: RenderBot, the hosted deployment. Each pass of its loop
 * cleans the bot's state and runs the poller; a poller that raises costs one
 * restart and, while restarts remain, a linear back-off wait.
 */
module RenderMain {
  import opened Common
  import opened Feed

  // ---------------------------------------------------------------------------
  // cleanup_for_render

  /** What the calls of one cleanup_for_render answered. */
  datatype CleanupRun = CleanupRun(delete: Response, batch: Response, acks: seq<Ack>)

  const CleanupLimit := 50

  /** deleteWebhook; when it raises nothing else (the outer handler);
      otherwise a 2 s wait, one batch of at most 50, a follow-up per update
      when the batch came back, and a 1 s wait. */
  function CleanupTrace(run: CleanupRun): seq<Entry>
  {
    var delete := [Call(DeleteWebhook(true), run.delete)];
    var fetched := delete + [Sleep(2)] + [Call(GetUpdates(None, CleanupLimit), run.batch)];
    if run.delete.Failed? then delete
    else if run.batch.Failed? then fetched + [Sleep(1)]
    else fetched + FollowUps(run.acks) + [Sleep(1)]
  }

  /** cleanup_for_render: never raises; a failed batch fetch is reported and
      the final wait still happens; a failed follow-up is ignored. */
  method CleanupForRender(api: Api) returns (out: Api, run: CleanupRun)
    requires Wf(api)
    ensures Wf(out)
    // exactly the calls of CleanupTrace(run) were made, with those answers
    ensures Replay(api, CleanupTrace(run)) == Some(out)
    ensures !run.batch.Failed? ==> run.batch == Updates(AckIds(run.acks)) && |run.acks| <= CleanupLimit
    ensures run.delete.Failed? || run.batch.Failed? ==> run.acks == []
    // once deleteWebhook went through, the webhook is gone
    ensures !run.delete.Failed? ==> !out.webhook
    ensures forall k :: 0 <= k < |run.acks| && !run.acks[k].resp.Failed? ==> Confirmed(out, run.acks[k].id)
  {
    var d := Invoke(api, DeleteWebhook(true));
    InvokeWf(api, DeleteWebhook(true));
    InvokeDeleteWebhook(api);
    ReplayCall(api, [], api, DeleteWebhook(true));
    ghost var tail := [Call(DeleteWebhook(true), d.1)];
    assert [] + tail == tail;
    out := d.0;
    run := CleanupRun(d.1, Updates([]), []);
    if d.1.Failed? {
      return;
    }
    ReplaySleep(api, tail, out, 2);
    out := Pause(out, 2);
    tail := tail + [Sleep(2)];
    var b := Invoke(out, GetUpdates(None, CleanupLimit));
    FetchedBelowNext(out, CleanupLimit);
    InvokeProgress(out, GetUpdates(None, CleanupLimit));
    ReplayCall(api, tail, out, GetUpdates(None, CleanupLimit));
    tail := tail + [Call(GetUpdates(None, CleanupLimit), b.1)];
    out := b.0;
    run := CleanupRun(d.1, b.1, []);
    if !b.1.Failed? {
      var acks: seq<Ack>;
      var acked: nat;
      var acknowledged: Api;
      acknowledged, acks, acked := Acknowledge(out, b.1.ids);
      ReplayThen(api, tail, out, FollowUps(acks), acknowledged);
      tail := tail + FollowUps(acks);
      out := acknowledged;
      run := CleanupRun(d.1, b.1, acks);
    }
    ReplaySleep(api, tail, out, 1);
    out := Pause(out, 1);
  }

  // ---------------------------------------------------------------------------
  // The restart loop

  /** `self.max_restarts`. */
  const MaxRestarts := 3

  /** How many of the first `n` polls raised. */
  function Failures(polls: seq<Outcome>, n: nat): nat
    requires n <= |polls|
  {
    if n == 0 then 0
    else Failures(polls, n - 1) + (if polls[n - 1].Raise? then 1 else 0)
  }

  /** The wait after the k-th counted failure: 10 k seconds for a network
      error or a timeout, 5 k seconds for a Conflict or anything else. */
  function Backoff(fault: Fault, k: nat): nat
  {
    if fault == NetworkError || fault == TimedOut then 10 * k else 5 * k
  }

  /** The waits of the loop over the first `n` polls, starting from `start`
      restarts: after each failure the count goes up and, while it stays
      below MaxRestarts, the back-off for that count follows. */
  function Waits(polls: seq<Outcome>, n: nat, start: nat): seq<nat>
    requires n <= |polls|
  {
    if n == 0 then []
    else Waits(polls, n - 1, start) + WaitAfter(polls[n - 1], start + Failures(polls, n - 1))
  }

  /** After `n` polls from `start` restarts, the count and the waits taken
      are those the loop's rules give. */
  ghost predicate Accounted(polls: seq<Outcome>, n: nat, start: nat, count: nat, base: seq<nat>, taken: seq<nat>)
  {
    n <= |polls| && count == start + Failures(polls, n) && taken == base + Waits(polls, n, start)
  }

  lemma AccountedStep(polls: seq<Outcome>, n: nat, start: nat, count: nat, base: seq<nat>, taken: seq<nat>)
    requires Accounted(polls, n, start, count, base, taken) && n < |polls|
    ensures Accounted(polls, n + 1, start, count + (if polls[n].Raise? then 1 else 0), base,
      taken + WaitAfter(polls[n], count))
  {
    Assoc(base, Waits(polls, n, start), WaitAfter(polls[n], count));
  }

  /** The clean-ups of one pass: the one that starts it and, after a
      Conflict, the second one. */
  datatype PassRun = PassRun(first: CleanupRun, again: Option<CleanupRun>)

  function PassTrace(pass: PassRun): seq<Entry>
  {
    if pass.again.Some? then CleanupTrace(pass.first) + CleanupTrace(pass.again.value)
    else CleanupTrace(pass.first)
  }

  /** The log of a sequence of passes, in order. */
  function PassTraces(passes: seq<PassRun>): seq<Entry>
  {
    if passes == [] then []
    else PassTraces(passes[..|passes| - 1]) + PassTrace(passes[|passes| - 1])
  }

  lemma PassTracesStep(passes: seq<PassRun>, pass: PassRun)
    ensures PassTraces(passes + [pass]) == PassTraces(passes) + PassTrace(pass)
  {
    assert (passes + [pass])[..|passes|] == passes;
  }

  /** The back-off after a poll that ended with `poll`, when `count`
      restarts had been counted before it. */
  function WaitAfter(poll: Outcome, count: nat): seq<nat>
  {
    match poll
    case Ok => []
    case Raise(f) => if count + 1 < MaxRestarts then [Backoff(f, count + 1)] else []
  }

  /** Counted failures bound the waits: there is one wait for each failure
      that leaves the count below MaxRestarts, so at most
      MaxRestarts - 1 - start of them. */
  lemma {:induction false} WaitsCount(polls: seq<Outcome>, n: nat, start: nat)
    requires n <= |polls| && start < MaxRestarts
    ensures |Waits(polls, n, start)| == Min(Failures(polls, n), MaxRestarts - 1 - start)
  {
    if n > 0 {
      WaitsCount(polls, n - 1, start);
    }
  }

  /** The j-th wait follows failure number start + j + 1 and is 5 or 10
      times that number, with no cap. */
  lemma {:induction false} WaitsLinear(polls: seq<Outcome>, n: nat, start: nat)
    requires n <= |polls| && start < MaxRestarts
    ensures forall j :: 0 <= j < |Waits(polls, n, start)| ==>
      Waits(polls, n, start)[j] == 5 * (start + j + 1) || Waits(polls, n, start)[j] == 10 * (start + j + 1)
  {
    if n > 0 {
      WaitsLinear(polls, n - 1, start);
      WaitsCount(polls, n - 1, start);
    }
  }

  /** Pass k cleaned up a second time exactly when poll k raised a
      Conflict. */
  predicate FollowsPolls(passes: seq<PassRun>, polls: seq<Outcome>)
  {
    |passes| <= |polls|
    && forall k :: 0 <= k < |passes| ==> (passes[k].again.Some? <==> polls[k] == Raise(Conflict))
  }

  lemma FollowsPollsStep(passes: seq<PassRun>, pass: PassRun, polls: seq<Outcome>)
    requires FollowsPolls(passes, polls) && |passes| < |polls|
    requires pass.again.Some? <==> polls[|passes|] == Raise(Conflict)
    ensures FollowsPolls(passes + [pass], polls)
  {
  }

  /** One pass of start_bot's loop: the clean-up, the poll's outcome, and
      what the handler of that outcome does: a Conflict cleans up once more,
      every failure counts one restart, and while the count stays below
      MaxRestarts its back-off follows. */
  method Pass(api: Api, count: nat, poll: Outcome)
    returns (out: Api, next: nat, wait: seq<nat>, ghost pass: PassRun)
    requires Wf(api)
    ensures Wf(out)
    ensures next == count + (if poll.Raise? then 1 else 0)
    ensures wait == WaitAfter(poll, count)
    ensures pass.again.Some? <==> poll == Raise(Conflict)
    ensures Replay(api, PassTrace(pass)) == Some(out)
  {
    var first: CleanupRun;
    out, first := CleanupForRender(api);
    pass := PassRun(first, None);
    next := count;
    wait := [];
    if poll.Raise? {
      if poll.fault == Conflict {
        var again: CleanupRun;
        var cleaned: Api;
        cleaned, again := CleanupForRender(out);
        ReplayThen(api, CleanupTrace(first), out, CleanupTrace(again), cleaned);
        out := cleaned;
        pass := PassRun(first, Some(again));
      }
      next := count + 1;
      if next < MaxRestarts {
        wait := [Backoff(poll.fault, next)];
      }
    }
  }

  /** The loop after `consumed` polls from `start` restarts: the count and
      the waits follow the loop's rules, pass k cleaned up again exactly
      after a Conflict, the passes made exactly the calls of PassTraces, and
      every poll was started with fewer than MaxRestarts restarts counted. */
  ghost predicate Polled(api: Api, start: nat, polls: seq<Outcome>, consumed: nat, count: nat,
                         waits: seq<nat>, passes: seq<PassRun>, out: Api)
  {
    && Accounted(polls, consumed, start, count, [], waits)
    && |passes| == consumed && FollowsPolls(passes, polls)
    && Replay(api, PassTraces(passes)) == Some(out)
    && (forall k :: 0 <= k < consumed ==> start + Failures(polls, k) < MaxRestarts)
  }

  lemma PollStep(api: Api, start: nat, polls: seq<Outcome>, consumed: nat, count: nat,
                 waits: seq<nat>, passes: seq<PassRun>, out: Api,
                 next: nat, wait: seq<nat>, pass: PassRun, passed: Api)
    requires Polled(api, start, polls, consumed, count, waits, passes, out)
    requires consumed < |polls| && count < MaxRestarts
    requires next == count + (if polls[consumed].Raise? then 1 else 0)
    requires wait == WaitAfter(polls[consumed], count)
    requires pass.again.Some? <==> polls[consumed] == Raise(Conflict)
    requires Replay(out, PassTrace(pass)) == Some(passed)
    ensures Polled(api, start, polls, consumed + 1, next, waits + wait, passes + [pass], passed)
  {
    PassTracesStep(passes, pass);
    FollowsPollsStep(passes, pass, polls);
    ReplayThen(api, PassTraces(passes), out, PassTrace(pass), passed);
    AccountedStep(polls, consumed, start, count, [], waits);
  }

  /** The loop of start_bot from `start` restarts over the outcomes of
      successive run_polling calls (Ok for a normal return). It runs while
      fewer than MaxRestarts restarts were counted (the `running` flag stays
      set throughout, since nothing clears it during the loop); `consumed`
      polls were used, and the loop also ends when no outcome is left. Each
      pass cleans up first, and a Conflict cleans up again; each failure
      counts exactly one restart and, while the count stays below
      MaxRestarts, waits its back-off. */
  method PollLoop(api: Api, start: nat, polls: seq<Outcome>)
    returns (out: Api, count: nat, consumed: nat, ghost waits: seq<nat>, ghost passes: seq<PassRun>)
    requires Wf(api)
    ensures Wf(out)
    ensures consumed <= |polls|
    ensures count == start + Failures(polls, consumed)
    ensures waits == Waits(polls, consumed, start)
    ensures |passes| == consumed && FollowsPolls(passes, polls)
    ensures Replay(api, PassTraces(passes)) == Some(out)
    // every poll that ran was started with fewer than MaxRestarts restarts counted
    ensures forall k :: 0 <= k < consumed ==> start + Failures(polls, k) < MaxRestarts
    ensures start <= MaxRestarts ==> count <= MaxRestarts
    ensures consumed == |polls| || count >= MaxRestarts
  {
    out := api;
    count := start;
    consumed := 0;
    waits := [];
    passes := [];
    while count < MaxRestarts && consumed < |polls|
      invariant Wf(out)
      invariant consumed <= |polls|
      invariant Polled(api, start, polls, consumed, count, waits, passes, out)
      invariant start <= MaxRestarts ==> count <= MaxRestarts
      decreases |polls| - consumed
    {
      var poll := polls[consumed];
      var next: nat, wait: seq<nat>;
      var passed: Api;
      ghost var pass: PassRun;
      passed, next, wait, pass := Pass(out, count, poll);
      PollStep(api, start, polls, consumed, count, waits, passes, out, next, wait, pass, passed);
      out := passed;
      count := next;
      waits := waits + wait;
      passes := passes + [pass];
      consumed := consumed + 1;
      if poll.Raise? && count >= MaxRestarts {
        break;
      }
    }
  }

  class RenderBot {
    /** The bot client's view of the server. */
    var api: Api
    var running: bool
    var restartCount: nat
    /** The back-off waits taken, in seconds. */
    ghost var waits: seq<nat>

    predicate Valid()
      reads this
    {
      Wf(api)
    }

    constructor (api: Api)
      requires Wf(api)
      ensures Valid()
      ensures this.api == api && !running && restartCount == 0 && waits == []
    {
      this.api := api;
      running := false;
      restartCount := 0;
      waits := [];
    }

    /** start_bot: sets `running` and runs the loop of PollLoop over the
        client, the restart count and the waits. */
    method StartBot(polls: seq<Outcome>) returns (consumed: nat, ghost passes: seq<PassRun>)
      requires Valid()
      modifies this
      ensures Valid()
      ensures running
      ensures consumed <= |polls|
      ensures restartCount == old(restartCount) + Failures(polls, consumed)
      ensures waits == old(waits) + Waits(polls, consumed, old(restartCount))
      ensures |passes| == consumed && FollowsPolls(passes, polls)
      ensures Replay(old(api), PassTraces(passes)) == Some(api)
      // every poll that ran was started with fewer than MaxRestarts restarts counted
      ensures forall k :: 0 <= k < consumed ==> old(restartCount) + Failures(polls, k) < MaxRestarts
      ensures old(restartCount) <= MaxRestarts ==> restartCount <= MaxRestarts
      ensures consumed == |polls| || restartCount >= MaxRestarts
    {
      running := true;
      var out: Api, count: nat;
      ghost var taken: seq<nat>;
      out, count, consumed, taken, passes := PollLoop(api, restartCount, polls);
      api := out;
      restartCount := count;
      waits := waits + taken;
    }

    /** stop_bot: `running` becomes false; nothing else of the model changes
        (stopping the application is not modelled). */
    method StopBot()
      modifies this
      ensures !running
      ensures api == old(api) && restartCount == old(restartCount) && waits == old(waits)
    {
      running := false;
    }
  }

  /** A bot that starts with no restarts counted waits at most twice, and
      exactly twice once MaxRestarts failures were counted. */
  lemma FreshBotBounds(polls: seq<Outcome>, consumed: nat)
    requires consumed <= |polls|
    ensures |Waits(polls, consumed, 0)| <= MaxRestarts - 1
    ensures Failures(polls, consumed) >= MaxRestarts ==> |Waits(polls, consumed, 0)| == MaxRestarts - 1
  {
    WaitsCount(polls, consumed, 0);
  }
}
