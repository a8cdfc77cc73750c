/**
 * monitor_bot.py: BotMonitor, a watchdog that checks the bot every 30
 * seconds, counts consecutive failed checks, and on a Conflict drops the
 * webhook and drains the backlog by itself.
 */
module Monitor {
  import opened Common
  import opened Feed

  /** `self.max_failures` and `self.check_interval`. */
  const MaxFailures := 3
  const CheckInterval := 30
  const ResolveLimit := 100

  // ---------------------------------------------------------------------------
  // check_bot_health and print_status

  /** What the three calls of one health check answered. */
  datatype HealthRun = HealthRun(me: Response, webhook: Response, updates: Response)

  /** getMe, getWebhookInfo, getUpdates(limit=1), stopping at the first call
      that raises. */
  function HealthTrace(run: HealthRun): seq<Entry>
  {
    var me := [Call(GetMe, run.me)];
    var info := me + [Call(GetWebhookInfo, run.webhook)];
    if run.me.Failed? then me
    else if run.webhook.Failed? then info
    else info + [Call(GetUpdates(None, 1), run.updates)]
  }

  /** The error that ended the check, if any. */
  function FirstFault(run: HealthRun): Option<Fault>
  {
    if run.me.Failed? then Some(run.me.fault)
    else if run.webhook.Failed? then Some(run.webhook.fault)
    else if run.updates.Failed? then Some(run.updates.fault)
    else None
  }

  /** The status dictionary a check returns; a key the dictionary lacks reads
      as false, or as None for `consecutive_failures`. */
  datatype Status = Status(
    botActive: bool,
    conflictDetected: bool,
    failures: Option<nat>,
    webhookActive: bool,
    pending: nat)

  /** check_bot_health: the status it returns and the new
      `consecutive_failures`. A check that answers resets the counter, a
      Conflict leaves it alone and reports the conflict, and any other error
      adds one and reports the new count. */
  function Health(run: HealthRun, failures: nat): (r: (Status, nat))
    ensures r.0.botActive <==> FirstFault(run).None?
    ensures r.0.conflictDetected <==> FirstFault(run) == Some(Conflict)
    ensures FirstFault(run).None? ==> r.1 == 0
    ensures FirstFault(run) == Some(Conflict) ==> r.1 == failures && r.0.failures.None?
    ensures FirstFault(run).Some? && FirstFault(run) != Some(Conflict) ==> r.1 == failures + 1 && r.0.failures == Some(r.1)
  {
    match FirstFault(run)
    case None =>
      var webhookActive := run.webhook.Webhook? && run.webhook.active;
      var pending := if run.updates.Updates? then |run.updates.ids| else 0;
      (Status(true, false, None, webhookActive, pending), 0)
    case Some(f) =>
      if f == Conflict then (Status(false, true, None, false, 0), failures)
      else (Status(false, false, Some(failures + 1), false, 0), failures + 1)
  }

  /** The three lines print_status can open with. */
  datatype Light = Active | ConflictShown | Inactive

  /** print_status: active when `bot_active`, else conflict when
      `conflict_detected`, else inactive. */
  function Classify(status: Status): (light: Light)
    ensures light == Active <==> status.botActive
    ensures light == ConflictShown <==> !status.botActive && status.conflictDetected
  {
    if status.botActive then Active
    else if status.conflictDetected then ConflictShown
    else Inactive
  }

  /** What one pass of run_monitor does after the check, besides the wait. */
  datatype Action = Resolve | Warn | Idle

  /** `if conflict_detected: resolve … elif consecutive_failures >= 3: warn`,
      reading a missing count as 0. */
  function Decide(status: Status): (action: Action)
    ensures action == Resolve <==> status.conflictDetected
    ensures action == Warn <==> !status.conflictDetected && status.failures.Some? && status.failures.value >= MaxFailures
  {
    if status.conflictDetected then Resolve
    else if (if status.failures.Some? then status.failures.value else 0) >= MaxFailures then Warn
    else Idle
  }

  // ---------------------------------------------------------------------------
  // The counter over many checks

  /** The kind of a check's result. */
  datatype Verdict = Up | Clash | Down

  function VerdictOf(run: HealthRun): Verdict
  {
    match FirstFault(run)
    case None => Up
    case Some(f) => if f == Conflict then Clash else Down
  }

  /** The counter after a sequence of checks, applying Health's rule check by
      check. */
  function Streak(vs: seq<Verdict>, start: nat): nat
  {
    if vs == [] then start
    else
      var c := Streak(vs[..|vs| - 1], start);
      match vs[|vs| - 1]
      case Up => 0
      case Clash => c
      case Down => c + 1
  }

  function CountDown(vs: seq<Verdict>): nat
  {
    if vs == [] then 0 else CountDown(vs[..|vs| - 1]) + (if vs[|vs| - 1] == Down then 1 else 0)
  }

  /** The index of the last successful check, or -1. */
  function LastUp(vs: seq<Verdict>): (i: int)
    ensures -1 <= i < |vs|
    ensures i >= 0 ==> vs[i] == Up
    ensures forall k :: i < k < |vs| ==> vs[k] != Up
  {
    if vs == [] then -1
    else if vs[|vs| - 1] == Up then |vs| - 1
    else LastUp(vs[..|vs| - 1])
  }

  lemma CountDownStep(vs: seq<Verdict>, i: nat)
    requires i < |vs|
    ensures CountDown(vs[i..]) == CountDown(vs[i..|vs| - 1]) + (if vs[|vs| - 1] == Down then 1 else 0)
  {
    assert vs[i..][..|vs[i..]| - 1] == vs[i..|vs| - 1];
  }

  /** The counter is the number of failed checks (Conflicts aside) since the
      last check that answered, on top of the starting value when no check
      answered yet. */
  lemma {:induction false} StreakCountsDownsSinceLastUp(vs: seq<Verdict>, start: nat)
    ensures LastUp(vs) < 0 ==> Streak(vs, start) == start + CountDown(vs)
    ensures LastUp(vs) >= 0 ==> Streak(vs, start) == CountDown(vs[LastUp(vs) + 1..])
  {
    if vs != [] {
      var init := vs[..|vs| - 1];
      StreakCountsDownsSinceLastUp(init, start);
      if vs[|vs| - 1] != Up {
        assert LastUp(vs) == LastUp(init);
        if LastUp(vs) >= 0 {
          CountDownStep(vs, LastUp(vs) + 1);
          assert vs[LastUp(vs) + 1..|vs| - 1] == init[LastUp(init) + 1..];
        }
      } else {
        assert vs[|vs|..] == [];
      }
    }
  }

  /** The action of each pass, given the checks' verdicts. */
  function Plan(vs: seq<Verdict>, start: nat): (r: seq<Action>)
    ensures |r| == |vs|
  {
    if vs == [] then []
    else
      var last := vs[|vs| - 1];
      Plan(vs[..|vs| - 1], start)
        + [if last == Clash then Resolve else if last == Down && Streak(vs, start) >= MaxFailures then Warn else Idle]
  }

  /** A pass resolves exactly when its check hit a Conflict, and warns exactly
      when its check failed otherwise with the counter at MaxFailures or
      more; the two never come together. */
  lemma {:induction false} PlanMeaning(vs: seq<Verdict>, start: nat, k: nat)
    requires k < |vs|
    ensures Plan(vs, start)[k] == Resolve <==> vs[k] == Clash
    ensures Plan(vs, start)[k] == Warn <==> vs[k] == Down && Streak(vs[..k + 1], start) >= MaxFailures
  {
    var init := vs[..|vs| - 1];
    if k < |vs| - 1 {
      PlanMeaning(init, start, k);
      assert init[..k + 1] == vs[..k + 1];
    } else {
      assert vs[..k + 1] == vs;
    }
  }

  lemma PlanStep(vs: seq<Verdict>, v: Verdict, start: nat)
    ensures var more := vs + [v];
      && Streak(more, start) == (match v case Up => 0 case Clash => Streak(vs, start) case Down => Streak(vs, start) + 1)
      && Plan(more, start) == Plan(vs, start)
         + [if v == Clash then Resolve else if v == Down && Streak(more, start) >= MaxFailures then Warn else Idle]
  {
    assert (vs + [v])[..|vs|] == vs;
  }

  /** The decision of one pass agrees with the plan: Health's counter is the
      streak's next value, and Decide picks the plan's action. */
  lemma DecideFollowsPlan(run: HealthRun, vs: seq<Verdict>, start: nat)
    ensures var h := Health(run, Streak(vs, start));
      var more := vs + [VerdictOf(run)];
      && h.1 == Streak(more, start)
      && Decide(h.0) == Plan(more, start)[|vs|]
  {
    PlanStep(vs, VerdictOf(run), start);
  }

  // ---------------------------------------------------------------------------
  // resolve_conflict and initialize

  /** What the calls of resolve_conflict answered. */
  datatype ResolveRun = ResolveRun(delete: Response, batch: Response, acks: seq<Ack>)

  function ResolveTrace(run: ResolveRun): seq<Entry>
  {
    var delete := [Call(DeleteWebhook(true), run.delete)];
    var fetched := delete + [Sleep(3)] + [Call(GetUpdates(None, ResolveLimit), run.batch)];
    if run.delete.Failed? then delete
    else if run.batch.Failed? then fetched
    else fetched + FollowUps(run.acks) + [Sleep(2)]
  }

  /** resolve_conflict: deleteWebhook, a 3 s wait, one batch of at most 100,
      a follow-up with offset update_id + 1 per update whose errors are
      ignored, a 2 s wait, True. An error in deleteWebhook or in the batch
      fetch gives False. */
  method ResolveConflict(api: Api) returns (out: Api, ok: bool, run: ResolveRun)
    requires Wf(api)
    ensures Wf(out) && out.webhook == (if run.delete.Failed? then api.webhook else false)
    // exactly the calls of ResolveTrace(run) were made, with those answers
    ensures Replay(api, ResolveTrace(run)) == Some(out)
    ensures ok <==> !run.delete.Failed? && !run.batch.Failed?
    ensures !run.batch.Failed? ==> run.batch == Updates(AckIds(run.acks)) && |run.acks| <= ResolveLimit
    ensures !ok ==> run.acks == []
    ensures forall k :: 0 <= k < |run.acks| && !run.acks[k].resp.Failed? ==> Confirmed(out, run.acks[k].id)
  {
    var d := Invoke(api, DeleteWebhook(true));
    InvokeWf(api, DeleteWebhook(true));
    InvokeDeleteWebhook(api);
    ReplayCall(api, [], api, DeleteWebhook(true));
    ghost var tail := [Call(DeleteWebhook(true), d.1)];
    assert [] + tail == tail;
    out := d.0;
    ok := false;
    run := ResolveRun(d.1, Updates([]), []);
    if d.1.Failed? {
      InvokeFailed(api, DeleteWebhook(true));
      return;
    }
    ReplaySleep(api, tail, out, 3);
    out := Pause(out, 3);
    tail := tail + [Sleep(3)];
    var b := Invoke(out, GetUpdates(None, ResolveLimit));
    FetchedBelowNext(out, ResolveLimit);
    InvokeProgress(out, GetUpdates(None, ResolveLimit));
    ReplayCall(api, tail, out, GetUpdates(None, ResolveLimit));
    tail := tail + [Call(GetUpdates(None, ResolveLimit), b.1)];
    out := b.0;
    run := ResolveRun(d.1, b.1, []);
    if b.1.Failed? {
      return;
    }
    var acks: seq<Ack>;
    var acked: nat;
    var acknowledged: Api;
    acknowledged, acks, acked := Acknowledge(out, b.1.ids);
    ReplayThen(api, tail, out, FollowUps(acks), acknowledged);
    tail := tail + FollowUps(acks);
    ReplaySleep(api, tail, acknowledged, 2);
    out := Pause(acknowledged, 2);
    run := ResolveRun(d.1, b.1, acks);
    ok := true;
  }

  /** initialize: False without a token and without a call; otherwise True
      exactly when getMe answers. */
  function Initialize(hasToken: bool, api: Api): (r: (Api, bool))
    ensures !hasToken ==> r.0 == api && !r.1
    // with a token, getMe is the one call made
    ensures hasToken ==> Replay(api, [Call(GetMe, Invoke(api, GetMe).1)]) == Some(r.0)
    ensures r.1 <==> hasToken && !Invoke(api, GetMe).1.Failed?
  {
    if !hasToken then (api, false)
    else
      var m := Invoke(api, GetMe);
      ReplayCall(api, [], api, GetMe);
      assert [] + [Call(GetMe, m.1)] == [Call(GetMe, m.1)];
      (m.0, !m.1.Failed?)
  }

  // ---------------------------------------------------------------------------
  // The passes of run_monitor

  /** What one pass of run_monitor's loop called: the health check and, after
      a Conflict, resolve_conflict. */
  datatype MonitorPass = MonitorPass(check: HealthRun, resolve: Option<ResolveRun>)

  /** The calls of one pass: the check, the resolution when there was one,
      and the 30 s wait. */
  function PassTrace(pass: MonitorPass): seq<Entry>
  {
    var resolved := if pass.resolve.Some? then ResolveTrace(pass.resolve.value) else [];
    HealthTrace(pass.check) + resolved + [Sleep(CheckInterval)]
  }

  function MonitorTraces(passes: seq<MonitorPass>): seq<Entry>
  {
    if passes == [] then []
    else MonitorTraces(passes[..|passes| - 1]) + PassTrace(passes[|passes| - 1])
  }

  /** The monitor after the passes `passes` from `init` with the counter at
      `start`: each pass's verdict is its check's, the counter follows
      Streak, the actions follow Plan, a pass resolved exactly when its
      action was Resolve, and the passes made exactly the calls of
      MonitorTraces. */
  ghost predicate Monitored(init: Api, start: nat, verdicts: seq<Verdict>, actions: seq<Action>,
                            passes: seq<MonitorPass>, api: Api, failures: nat)
  {
    && |passes| == |verdicts|
    && failures == Streak(verdicts, start)
    && actions == Plan(verdicts, start)
    && (forall k :: 0 <= k < |passes| ==> verdicts[k] == VerdictOf(passes[k].check))
    && (forall k :: 0 <= k < |passes| ==> (passes[k].resolve.Some? <==> actions[k] == Resolve))
    && Replay(init, MonitorTraces(passes)) == Some(api)
  }

  lemma MonitorStep(init: Api, start: nat, verdicts: seq<Verdict>, actions: seq<Action>,
                    passes: seq<MonitorPass>, api: Api, failures: nat,
                    pass: MonitorPass, action: Action, checked: Api, resolved: Api)
    requires Monitored(init, start, verdicts, actions, passes, api, failures)
    requires Replay(api, HealthTrace(pass.check)) == Some(checked)
    requires pass.resolve.Some? ==> Replay(checked, ResolveTrace(pass.resolve.value)) == Some(resolved)
    requires pass.resolve.None? ==> resolved == checked
    requires pass.resolve.Some? <==> action == Resolve
    requires Health(pass.check, failures).1 == Streak(verdicts + [VerdictOf(pass.check)], start)
    requires action == Plan(verdicts + [VerdictOf(pass.check)], start)[|verdicts|]
    ensures Monitored(init, start, verdicts + [VerdictOf(pass.check)], actions + [action],
      passes + [pass], Pause(resolved, CheckInterval), Health(pass.check, failures).1)
  {
    PlanStep(verdicts, VerdictOf(pass.check), start);
    PassesStep(verdicts, actions, passes, pass, action);
    PassReplay(api, pass, checked, resolved);
    assert (passes + [pass])[..|passes|] == passes;
    ReplayThen(init, MonitorTraces(passes), api, PassTrace(pass), Pause(resolved, CheckInterval));
  }

  lemma PassesStep(verdicts: seq<Verdict>, actions: seq<Action>, passes: seq<MonitorPass>,
                   pass: MonitorPass, action: Action)
    requires |passes| == |verdicts| == |actions|
    requires forall k :: 0 <= k < |passes| ==> verdicts[k] == VerdictOf(passes[k].check)
    requires forall k :: 0 <= k < |passes| ==> (passes[k].resolve.Some? <==> actions[k] == Resolve)
    requires pass.resolve.Some? <==> action == Resolve
    ensures var vs, acts, ps := verdicts + [VerdictOf(pass.check)], actions + [action], passes + [pass];
      && (forall k :: 0 <= k < |ps| ==> vs[k] == VerdictOf(ps[k].check))
      && (forall k :: 0 <= k < |ps| ==> (ps[k].resolve.Some? <==> acts[k] == Resolve))
  {
    var vs, acts, ps := verdicts + [VerdictOf(pass.check)], actions + [action], passes + [pass];
    forall k | 0 <= k < |ps|
      ensures vs[k] == VerdictOf(ps[k].check) && (ps[k].resolve.Some? <==> acts[k] == Resolve)
    {
      if k < |passes| {
        assert vs[k] == verdicts[k] && acts[k] == actions[k] && ps[k] == passes[k];
      }
    }
  }

  /** One pass replays as its check, its resolution and the wait. */
  lemma PassReplay(api: Api, pass: MonitorPass, checked: Api, resolved: Api)
    requires Replay(api, HealthTrace(pass.check)) == Some(checked)
    requires pass.resolve.Some? ==> Replay(checked, ResolveTrace(pass.resolve.value)) == Some(resolved)
    requires pass.resolve.None? ==> resolved == checked
    ensures Replay(api, PassTrace(pass)) == Some(Pause(resolved, CheckInterval))
  {
    var resolvedTrace := if pass.resolve.Some? then ResolveTrace(pass.resolve.value) else [];
    if pass.resolve.Some? {
      ReplayThen(api, HealthTrace(pass.check), checked, resolvedTrace, resolved);
    } else {
      assert HealthTrace(pass.check) + resolvedTrace == HealthTrace(pass.check);
    }
    ReplaySleep(api, HealthTrace(pass.check) + resolvedTrace, resolved, CheckInterval);
  }

  // ---------------------------------------------------------------------------
  // The monitor

  class BotMonitor {
    /** The monitor's own client's view of the server. */
    var api: Api
    var running: bool
    var consecutiveFailures: nat

    constructor (api: Api)
      requires Wf(api)
      ensures this.api == api && !running && consecutiveFailures == 0
    {
      this.api := api;
      running := false;
      consecutiveFailures := 0;
    }

    /** check_bot_health: three calls, and the status and counter of
        Health. */
    method CheckBotHealth() returns (status: Status, run: HealthRun)
      requires Wf(api)
      modifies this
      ensures Wf(api)
      // exactly the calls of HealthTrace(run) were made, with those answers
      ensures Replay(old(api), HealthTrace(run)) == Some(api)
      ensures (status, consecutiveFailures) == Health(run, old(consecutiveFailures))
      ensures running == old(running)
    {
      run := HealthRun(Me, Webhook(false), Updates([]));
      var m := Invoke(api, GetMe);
      InvokeWf(api, GetMe);
      ReplayCall(api, [], api, GetMe);
      ghost var tail := [Call(GetMe, m.1)];
      assert [] + tail == tail;
      var client := m.0;
      run := HealthRun(m.1, Webhook(false), Updates([]));
      if !m.1.Failed? {
        var w := Invoke(client, GetWebhookInfo);
        InvokeWf(client, GetWebhookInfo);
        ReplayCall(api, tail, client, GetWebhookInfo);
        tail := tail + [Call(GetWebhookInfo, w.1)];
        client := w.0;
        run := HealthRun(m.1, w.1, Updates([]));
        if !w.1.Failed? {
          var u := Invoke(client, GetUpdates(None, 1));
          InvokeWf(client, GetUpdates(None, 1));
          ReplayCall(api, tail, client, GetUpdates(None, 1));
          client := u.0;
          run := HealthRun(m.1, w.1, u.1);
        }
      }
      var h := Health(run, consecutiveFailures);
      api := client;
      status := h.0;
      consecutiveFailures := h.1;
    }

    /** run_monitor over `ticks` passes (the loop runs until it is
        interrupted). Nothing runs when initialize fails. Otherwise each pass
        checks, then resolves on a Conflict or warns after MaxFailures
        failures, never both, and waits 30 s; the counter follows Streak,
        and `running` is false at the end. */
    method RunMonitor(hasToken: bool, ticks: nat)
      returns (started: bool, ghost verdicts: seq<Verdict>, ghost actions: seq<Action>, ghost passes: seq<MonitorPass>)
      requires Wf(api)
      modifies this
      ensures Wf(api)
      ensures started <==> Initialize(hasToken, old(api)).1
      ensures !started ==> api == Initialize(hasToken, old(api)).0
      ensures !started ==> running == old(running) && consecutiveFailures == old(consecutiveFailures) && verdicts == []
      ensures started ==> !running && |verdicts| == ticks
      ensures |passes| == |verdicts|
      ensures actions == Plan(verdicts, old(consecutiveFailures))
      // each verdict is that of the pass's own check, and a pass resolved exactly when its action says so
      ensures forall k :: 0 <= k < |passes| ==> verdicts[k] == VerdictOf(passes[k].check)
      ensures forall k :: 0 <= k < |passes| ==> (passes[k].resolve.Some? <==> actions[k] == Resolve)
      // after initialize, exactly the calls of the passes were made, with those answers
      ensures started ==> Replay(Initialize(hasToken, old(api)).0, MonitorTraces(passes)) == Some(api)
      ensures started ==> consecutiveFailures == Streak(verdicts, old(consecutiveFailures))
    {
      verdicts := [];
      actions := [];
      passes := [];
      var init := Initialize(hasToken, api);
      if hasToken {
        InvokeWf(api, GetMe);
      }
      api := init.0;
      started := init.1;
      if !started {
        return;
      }
      running := true;
      ghost var start := consecutiveFailures;
      for i := 0 to ticks
        invariant Wf(api) && running
        invariant |verdicts| == i
        invariant Monitored(init.0, start, verdicts, actions, passes, api, consecutiveFailures)
      {
        ghost var before := api;
        ghost var failures := consecutiveFailures;
        var status: Status;
        var run: HealthRun;
        status, run := CheckBotHealth();
        ghost var checked := api;
        DecideFollowsPlan(run, verdicts, start);
        var action := Decide(status);
        ghost var resolve: Option<ResolveRun> := None;
        if action == Resolve {
          var ok: bool;
          var resolved: ResolveRun;
          api, ok, resolved := ResolveConflict(api);
          resolve := Some(resolved);
        }
        MonitorStep(init.0, start, verdicts, actions, passes, before, failures,
          MonitorPass(run, resolve), action, checked, api);
        api := Pause(api, CheckInterval);
        verdicts := verdicts + [VerdictOf(run)];
        actions := actions + [action];
        passes := passes + [MonitorPass(run, resolve)];
      }
      running := false;
    }
  }
}
